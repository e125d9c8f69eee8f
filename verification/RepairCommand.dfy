/** The fee-pending repair command: it records the repair, finalises or adds the fill, and appends a
    completed observation, or does nothing at all. */
module RepairCommand {
  import opened Wrappers
  import opened Rounding
  import opened Text
  import opened Picking
  import opened Grouping
  import opened Incidents

  /** The call, with what other tables decide about it. `cleared`: the order, side, provenance and ledger
      checks pass; `material`: a live fill whose size demands a fee; `counted`: the order already holds
      the whole quantity of an aggregate fill, which is then not added again. */
  datatype Request = Request(
    clientOrderId: string, fillId: Option<string>, fee: int, key: string, cleared: bool, material: bool, counted: bool)

  function PendingIn(r: Request): Observation -> Option<Observation> {
    (o: Observation) =>
         if && o.status.FeePending? && o.clientOrderId == Strip(r.clientOrderId)
            && (TextOr(r.fillId) != "" ==> o.fillId == Some(TextOr(r.fillId)))
         then Some(o) else None
  }

  /** The pending observations that the call selects; it repairs the last of them. */
  function Selected(r: Request, observations: seq<Observation>): seq<Observation> {
    Picked(PendingIn(r), observations)
  }

  function Target(r: Request, observations: seq<Observation>): Observation
    requires Selected(r, observations) != []
  {
    var pending := Selected(r, observations);
    pending[|pending| - 1]
  }

  predicate Refused(t: Tables, r: Request) {
    var pending := Selected(r, t.observations);
    || Strip(r.clientOrderId) == "" || !r.cleared || r.fee < 0 || pending == []
    || (|pending| > 1 && TextOr(r.fillId) == "")
    || (var o := Target(r, t.observations);
        o.price <= 0.0 || o.qty <= 0.0 || FeeComplete(MatchingFill(t.fills, o)) || (r.material && r.fee == 0))
  }

  /** Only a fill id can mark an aggregate. */
  predicate Counted(r: Request, o: Observation) { r.counted && TextOr(o.fillId) != "" }

  function FeeOf(r: Request): real { r.fee as real / CASH_QUANTA_PER_UNIT }

  function IdOf(o: Observation): Option<string> { if TextOr(o.fillId) != "" then Some(TextOr(o.fillId)) else None }

  function RepairFor(r: Request, o: Observation): RepairRow {
    RepairRow(r.key, o.clientOrderId, IdOf(o), o.fillTs, o.price, o.qty, FeeOf(r))
  }

  function FillFor(o: Observation, fee: real): FillRow {
    FillRow(o.clientOrderId, IdOf(o), o.fillTs, o.price, o.qty, fee, Finalized)
  }

  function Completed(o: Observation): Observation {
    Observation(o.clientOrderId, IdOf(o), o.fillTs, o.price, o.qty, AccountingComplete)
  }

  function IndexOf(fills: seq<FillRow>, f: FillRow): (i: nat)
    ensures i <= |fills| && (f in fills ==> i < |fills| && fills[i] == f)
  {
    if fills == [] || fills[0] == f then 0 else 1 + IndexOf(fills[1..], f)
  }

  /** The fill of the observation becomes final: the row that matches it, or a new one. */
  function Settle(t: Tables, o: Observation, fee: real, counted: bool): Tables {
    match MatchingFill(t.fills, o)
    case Some(f) => Step(t, FinalizeFee(IndexOf(t.fills, f), fee))
    case None => if counted then t else Step(t, AddFill(FillFor(o, fee)))
  }

  /** `None` is a refusal, after which nothing has been written. */
  function Apply(t: Tables, r: Request): Option<Tables> {
    if Refused(t, r) then None else
      var o := Target(r, t.observations);
      var settled := Settle(Step(t, RecordRepair(RepairFor(r, o))), o, FeeOf(r), Counted(r, o));
      Some(Step(settled, Observe(|settled.observations|, Completed(o))))
  }

  // ----- The fill after the command -----

  lemma TargetSelected(r: Request, observations: seq<Observation>)
    requires Selected(r, observations) != []
    ensures var o := Target(r, observations);
      o in observations && o.status.FeePending? && o.clientOrderId == Strip(r.clientOrderId)
  {
    PickedFrom(r, observations);
  }

  lemma {:induction false} PickedFrom(r: Request, observations: seq<Observation>)
    ensures forall o <- Selected(r, observations) ::
      o in observations && o.status.FeePending? && o.clientOrderId == Strip(r.clientOrderId)
  {
    if observations != [] {
      PickedFrom(r, observations[..|observations| - 1]);
    }
  }

  /** The completed observation has the identity and the matches of the one it completes. */
  lemma CompletedMatches(o: Observation)
    requires Strip(o.clientOrderId) == o.clientOrderId
    ensures IdentityOf(Completed(o)) == IdentityOf(o)
    ensures TextOr(Completed(o).fillId) == TextOr(o.fillId)
  {
    if o.fillId.Some? { StripLaw(o.fillId.value); }
  }

  /** The same row with another fee and status. */
  predicate SameFill(f: FillRow, g: FillRow) { g == f.(fee := g.fee, status := g.status) }

  lemma {:induction false} FirstReplaced(fills: seq<FillRow>, o: Observation, byId: bool, f: FillRow, g: FillRow)
    requires FirstFill(fills, o, byId) == Some(f) && SameFill(f, g)
    ensures IndexOf(fills, f) < |fills| && FirstFill(fills[IndexOf(fills, f) := g], o, byId) == Some(g)
  {
    if Matches(fills[0], o, byId) {
      assert fills[0 := g][0] == g;
    } else {
      FirstReplaced(fills[1..], o, byId, f, g);
      var i := IndexOf(fills, f);
      assert fills[i := g][0] == fills[0] && fills[i := g][1..] == fills[1..][i - 1 := g];
    }
  }

  lemma {:induction false} FirstAppended(fills: seq<FillRow>, o: Observation, byId: bool, f: FillRow)
    ensures FirstFill(fills + [f], o, byId) ==
      if FirstFill(fills, o, byId).Some? then FirstFill(fills, o, byId)
      else if Matches(f, o, byId) then Some(f) else None
  {
    if fills != [] {
      assert (fills + [f])[0] == fills[0] && (fills + [f])[1..] == fills[1..] + [f];
      FirstAppended(fills[1..], o, byId, f);
    } else {
      assert (fills + [f])[1..] == [];
    }
  }

  /** Finalising the row that matches an observation leaves it the match. */
  lemma MatchReplaced(fills: seq<FillRow>, o: Observation, f: FillRow, g: FillRow)
    requires MatchingFill(fills, o) == Some(f) && SameFill(f, g)
    ensures f in fills && MatchingFill(fills[IndexOf(fills, f) := g], o) == Some(g)
  {
    var byId := TextOr(o.fillId) != "" && FirstFill(fills, o, true).Some?;
    FirstReplaced(fills, o, byId, f, g);
    FirstFillFinalized(fills, IndexOf(fills, f), g, o, true);
  }

  /** A new row is the match of an observation, or the match is as before. */
  lemma MatchAppended(fills: seq<FillRow>, o: Observation, f: FillRow)
    ensures MatchingFill(fills + [f], o) == MatchingFill(fills, o) || MatchingFill(fills + [f], o) == Some(f)
    ensures MatchingFill(fills, o).None? && Matches(f, o, false) ==> MatchingFill(fills + [f], o) == Some(f)
  {
    FirstAppended(fills, o, true, f);
    FirstAppended(fills, o, false, f);
  }

  lemma OwnFillMatches(o: Observation, fee: real)
    requires Strip(o.clientOrderId) == o.clientOrderId
    ensures Matches(FillFor(o, fee), o, false)
    ensures TextOr(o.fillId) != "" ==> Matches(FillFor(o, fee), o, true)
  {
  }

  /** A fill without a match does not clash. */
  lemma NoMatchNoClash(fills: seq<FillRow>, o: Observation, fee: real)
    requires MatchingFill(fills, o).None? && Strip(o.clientOrderId) == o.clientOrderId
    ensures !Clashes(fills, FillFor(o, fee))
  {
    forall i | 0 <= i < |fills| && fills[i].clientOrderId == o.clientOrderId
      ensures !(IdOf(o).Some? && fills[i].fillId == IdOf(o))
      ensures !(fills[i].fillTs == o.fillTs && Near(fills[i].price, o.price) && Near(fills[i].qty, o.qty))
    {
      assert !Matches(fills[i], o, false);
      assert TextOr(o.fillId) != "" ==> !Matches(fills[i], o, true);
    }
  }

  /** The fill that matches the observation is final. */
  predicate FinalMatch(fills: seq<FillRow>, o: Observation) {
    MatchingFill(fills, o).Some? && MatchingFill(fills, o).value.status.Finalized?
  }

  lemma NotComplete(f: FillRow)
    requires !FeeComplete(Some(f))
    ensures !StatusOf(f).Finalized?
  {
  }

  lemma SettledIsFinal(t: Tables, o: Observation, fee: real, counted: bool)
    requires fee >= 0.0 && !FeeComplete(MatchingFill(t.fills, o)) && Strip(o.clientOrderId) == o.clientOrderId
    requires MatchingFill(t.fills, o).Some? || !counted
    ensures FinalMatch(Settle(t, o, fee, counted).fills, o)
  {
    match MatchingFill(t.fills, o)
    case Some(f) =>
      NotComplete(f);
      MatchReplaced(t.fills, o, f, f.(fee := fee, status := Finalized));
    case None =>
      NoMatchNoClash(t.fills, o, fee);
      OwnFillMatches(o, fee);
      MatchAppended(t.fills, o, FillFor(o, fee));
  }

  /** Observations that name the same fill in the same terms. */
  predicate SameTerms(o: Observation, o': Observation) {
    && Strip(o.clientOrderId) == Strip(o'.clientOrderId) && TextOr(o.fillId) == TextOr(o'.fillId)
    && o.fillTs == o'.fillTs && o.price == o'.price && o.qty == o'.qty
  }

  lemma {:induction false} FirstSame(fills: seq<FillRow>, o: Observation, o': Observation, byId: bool)
    requires SameTerms(o, o')
    ensures FirstFill(fills, o, byId) == FirstFill(fills, o', byId)
  {
    if fills != [] && !Matches(fills[0], o, byId) {
      FirstSame(fills[1..], o, o', byId);
    }
  }

  lemma MatchSame(fills: seq<FillRow>, o: Observation, o': Observation)
    requires SameTerms(o, o')
    ensures MatchingFill(fills, o) == MatchingFill(fills, o')
  {
    FirstSame(fills, o, o', true);
    FirstSame(fills, o, o', false);
  }

  /** What the command leaves: the target, its fill final unless it was counted already, one completed
      observation at the end, and the other fills as they were. */
  lemma Applied(t: Tables, r: Request, o: Observation, after: Tables)
    requires Apply(t, r) == Some(after) && Selected(r, t.observations) != [] && o == Target(r, t.observations)
    ensures Strip(o.clientOrderId) == o.clientOrderId && o in t.observations && r.fee >= 0
    ensures after.observations == t.observations + [Completed(o)]
    ensures after.fills == Settle(t, o, FeeOf(r), Counted(r, o)).fills
    ensures MatchingFill(t.fills, o).Some? || !Counted(r, o) ==> FinalMatch(after.fills, o)
    ensures MatchingFill(t.fills, o).None? && Counted(r, o) ==> after.fills == t.fills
  {
    TargetSelected(r, t.observations);
    StripLaw(r.clientOrderId);
    var recorded := Step(t, RecordRepair(RepairFor(r, o)));
    var settled := Settle(recorded, o, FeeOf(r), Counted(r, o));
    assert recorded.fills == t.fills && recorded.observations == t.observations;
    assert settled.observations == t.observations;
    assert t.observations[..|t.observations|] == t.observations && t.observations[|t.observations|..] == [];
    if MatchingFill(t.fills, o).Some? || !Counted(r, o) {
      SettledIsFinal(t, o, FeeOf(r), Counted(r, o));
    }
  }

  /** And the repair table: the row is recorded unless its key already is. */
  lemma RepairsAfter(t: Tables, r: Request, o: Observation, after: Tables)
    requires Apply(t, r) == Some(after) && Selected(r, t.observations) != [] && o == Target(r, t.observations)
    ensures after.repairs ==
      if exists i :: 0 <= i < |t.repairs| && t.repairs[i].key == r.key then t.repairs
      else t.repairs + [RepairFor(r, o)]
  {
    var recorded := Step(t, RecordRepair(RepairFor(r, o)));
    assert FeeOf(r) >= 0.0;
    assert Settle(recorded, o, FeeOf(r), Counted(r, o)).repairs == recorded.repairs;
  }

  // ----- The incident is settled -----

  /** No verdict on this identity is an active issue. */
  ghost predicate Inactive(t: Tables, id: Identity) {
    forall v :: v in Projection(t) && v.identity == id ==> !v.active
  }

  lemma CompletedInactive(t: Tables, o: Observation)
    requires SameTerms(o, Completed(o)) && (MatchingFill(t.fills, o).None? || FinalMatch(t.fills, o))
    ensures !Judge(t, Completed(o)).active
  {
    MatchSame(t.fills, o, Completed(o));
  }

  lemma AppliedInactive(t: Tables, r: Request, o: Observation, after: Tables)
    requires Apply(t, r) == Some(after) && Selected(r, t.observations) != [] && o == Target(r, t.observations)
    ensures !Judge(after, Completed(o)).active && IdentityOf(Completed(o)) == IdentityOf(o)
  {
    Applied(t, r, o, after);
    CompletedMatches(o);
    CompletedInactive(after, o);
  }

  /** After every applied command, whatever the fee, the incident of the repaired observation is there and
      is not active. */
  lemma CommandSettles(t: Tables, r: Request, o: Observation, after: Tables)
    requires Apply(t, r) == Some(after) && Selected(r, t.observations) != [] && o == Target(r, t.observations)
    ensures IdentityOf(o) in Keys(IdentityOf, after.observations) && Inactive(after, IdentityOf(o))
  {
    Applied(t, r, o, after);
    AppliedInactive(t, r, o, after);
    var c := Completed(o);
    OwnKey(IdentityOf, after.observations, |t.observations|);
    forall i | 0 <= i < |Projection(after)| && Projection(after)[i].identity == IdentityOf(o)
      ensures !Projection(after)[i].active
    {
      LatestAppended(IdentityOf, t.observations, c, i);
    }
  }

  lemma SettleCalms(t: Tables, o: Observation, fee: real, counted: bool, latest: Observation)
    ensures Judge(Settle(t, o, fee, counted), latest).active ==> Judge(t, latest).active
  {
    match MatchingFill(t.fills, o)
    case Some(f) => FinalizeStepCalms(t, IndexOf(t.fills, f), fee, latest);
    case None => AddFinalCalms(t, FillFor(o, fee), latest);
  }

  lemma FinalizeStepCalms(t: Tables, i: nat, fee: real, latest: Observation)
    ensures Judge(Step(t, FinalizeFee(i, fee)), latest).active ==> Judge(t, latest).active
  {
    if i < |t.fills| {
      FinalizeCalms(t, i, fee, latest);
    }
  }

  lemma AddFinalCalms(t: Tables, f: FillRow, latest: Observation)
    requires f.status.Finalized?
    ensures Judge(Step(t, AddFill(f)), latest).active ==> Judge(t, latest).active
  {
    MatchAppended(t.fills, latest, f);
  }

  lemma SettleNeverRaisesActive(t: Tables, o: Observation, fee: real, counted: bool)
    ensures CountActive(Projection(Settle(t, o, fee, counted))) <= CountActive(Projection(t))
  {
    forall latest ensures Judge(Settle(t, o, fee, counted), latest).active ==> Judge(t, latest).active {
      SettleCalms(t, o, fee, counted, latest);
    }
    CalmerTables(t, Settle(t, o, fee, counted));
  }

  /** The tables just before the completed observation is appended. */
  function BeforeObserved(t: Tables, r: Request, o: Observation): Tables {
    Settle(Step(t, RecordRepair(RepairFor(r, o))), o, FeeOf(r), Counted(r, o))
  }

  lemma ObservedLast(t: Tables, r: Request, o: Observation, after: Tables)
    requires Apply(t, r) == Some(after) && Selected(r, t.observations) != [] && o == Target(r, t.observations)
    ensures
      var settled := BeforeObserved(t, r, o);
      after == settled.(observations := settled.observations + [Completed(o)])
  {
    var settled := BeforeObserved(t, r, o);
    var n := |settled.observations|;
    assert settled.observations[..n] == settled.observations && settled.observations[n..] == [];
  }

  /** The command never raises the number of active issues. */
  lemma CommandNeverRaisesActive(t: Tables, r: Request, o: Observation, after: Tables)
    requires Apply(t, r) == Some(after) && Selected(r, t.observations) != [] && o == Target(r, t.observations)
    ensures CountActive(Projection(after)) <= CountActive(Projection(t))
  {
    RepairNeverRaisesActive(t, RepairFor(r, o));
    SettleNeverRaisesActive(Step(t, RecordRepair(RepairFor(r, o))), o, FeeOf(r), Counted(r, o));
    ObservedLast(t, r, o, after);
    AppliedInactive(t, r, o, after);
    SettledThenObserved(BeforeObserved(t, r, o), after, Completed(o));
  }

  /** Only the fills and the repairs decide about an observation. */
  lemma SameJudge(t: Tables, t': Tables, o: Observation)
    requires t.fills == t'.fills && t.repairs == t'.repairs
    ensures Judge(t', o) == Judge(t, o)
  {
  }

  lemma SettledThenObserved(settled: Tables, after: Tables, c: Observation)
    requires after == settled.(observations := settled.observations + [c]) && !Judge(after, c).active
    ensures CountActive(Projection(after)) <= CountActive(Projection(settled))
  {
    forall o ensures Judgement(after)(o).active ==> Judgement(settled)(o).active {
      SameJudge(settled, after, o);
    }
    CalmRow(IdentityOf, Judgement(after), settled.observations, c);
    CalmerJudgement(IdentityOf, Judgement(settled), Judgement(after), settled.observations);
  }

  // ----- For good -----

  /** Some fill of the order carries this fill id. */
  ghost predicate HoldsId(fills: seq<FillRow>, client: string, fillId: string) {
    exists i :: 0 <= i < |fills| && fills[i].clientOrderId == client && fills[i].fillId == Some(fillId)
  }

  lemma FirstByIdIff(fills: seq<FillRow>, o: Observation)
    ensures FirstFill(fills, o, true).Some? <==> HoldsId(fills, Strip(o.clientOrderId), TextOr(o.fillId))
  {
    if HoldsId(fills, Strip(o.clientOrderId), TextOr(o.fillId)) {
      var i :| 0 <= i < |fills| && fills[i].clientOrderId == Strip(o.clientOrderId)
          && fills[i].fillId == Some(TextOr(o.fillId));
      assert Matches(fills[i], o, true);
    }
  }

  lemma StepKeepsUnique(t: Tables, e: Event)
    requires UniqueFills(t.fills)
    ensures UniqueFills(Step(t, e).fills)
  {
  }

  lemma SettleKeepsUnique(t: Tables, o: Observation, fee: real, counted: bool)
    requires UniqueFills(t.fills)
    ensures UniqueFills(Settle(t, o, fee, counted).fills)
  {
    match MatchingFill(t.fills, o)
    case Some(f) => StepKeepsUnique(t, FinalizeFee(IndexOf(t.fills, f), fee));
    case None => StepKeepsUnique(t, AddFill(FillFor(o, fee)));
  }

  /** The final match of an observation with a fill id carries that id when any row does. */
  lemma FinalById(t: Tables, o: Observation, client: string, fillId: string)
    requires UniqueFills(t.fills) && FinalMatch(t.fills, o)
    requires client == Strip(o.clientOrderId) && fillId == TextOr(o.fillId) != "" && HoldsId(t.fills, client, fillId)
    ensures FinalizedFill(t, client, fillId)
  {
    FirstByIdIff(t.fills, o);
    var f := FirstFill(t.fills, o, true).value;
    var i :| 0 <= i < |t.fills| && t.fills[i] == f;
    assert Matches(f, o, true);
  }

  /** Before the call: a row carries the fill id, or no row matches and the fill is added. */
  ghost predicate GetsId(t: Tables, r: Request, o: Observation) {
    || HoldsId(t.fills, Strip(o.clientOrderId), TextOr(o.fillId))
    || (MatchingFill(t.fills, o).None? && !Counted(r, o))
  }

  lemma HoldsIdAfter(t: Tables, r: Request, o: Observation, after: Tables)
    requires Apply(t, r) == Some(after) && Selected(r, t.observations) != [] && o == Target(r, t.observations)
    requires TextOr(o.fillId) != ""
    ensures HoldsId(after.fills, Strip(o.clientOrderId), TextOr(o.fillId)) <==> GetsId(t, r, o)
  {
    Applied(t, r, o, after);
    match MatchingFill(t.fills, o)
    case Some(f) => FinalizedIds(t, IndexOf(t.fills, f), FeeOf(r), Strip(o.clientOrderId), TextOr(o.fillId));
    case None =>
      if !Counted(r, o) {
        NoMatchNoClash(t.fills, o, FeeOf(r));
        assert after.fills == t.fills + [FillFor(o, FeeOf(r))];
        assert after.fills[|t.fills|].fillId == Some(TextOr(o.fillId));
      }
  }

  lemma FinalizedIds(t: Tables, i: nat, fee: real, client: string, fillId: string)
    ensures HoldsId(Step(t, FinalizeFee(i, fee)).fills, client, fillId) <==> HoldsId(t.fills, client, fillId)
  {
    var fills := Step(t, FinalizeFee(i, fee)).fills;
    assert |fills| == |t.fills| && forall j :: 0 <= j < |fills| ==> SameFill(t.fills[j], fills[j]);
  }

  function Later(fills: seq<FillRow>): (ts: int)
    ensures forall f <- fills :: f.fillTs < ts
  {
    if fills == [] then 0 else
      var ts := Later(fills[..|fills| - 1]);
      var last := fills[|fills| - 1].fillTs;
      assert fills == fills[..|fills| - 1] + [fills[|fills| - 1]];
      if last < ts then ts else last + 1
  }

  /** A later fill with the same fill id whose fee evidence is blocked. */
  function BlockedLater(fills: seq<FillRow>, client: string, fillId: string): FillRow {
    FillRow(client, Some(fillId), Later(fills), 1.0, 1.0, 0.0, ValidationBlocked)
  }

  lemma BlockedLaterFits(fills: seq<FillRow>, client: string, fillId: string)
    requires !HoldsId(fills, client, fillId)
    ensures !Clashes(fills, BlockedLater(fills, client, fillId))
  {
    assert forall i :: 0 <= i < |fills| ==> fills[i] in fills;
  }

  lemma BlockedLaterIsActive(t: Tables, client: string, fillId: string, latest: Observation)
    requires !HoldsId(t.fills, client, fillId) && IdentityOf(latest) == ByFillId(client, fillId)
        && !latest.status.FeePending?
    ensures Judge(Step(t, AddFill(BlockedLater(t.fills, client, fillId))), latest).active
  {
    var f := BlockedLater(t.fills, client, fillId);
    BlockedLaterFits(t.fills, client, fillId);
    FirstByIdIff(t.fills, latest);
    FirstAppended(t.fills, latest, true, f);
    assert Matches(f, latest, true);
  }

  lemma ReactivatedBy(t: Tables, observations: seq<Observation>, c: Observation, client: string, fillId: string)
    requires t.observations == observations + [c] && IdentityOf(c) == ByFillId(client, fillId) && !c.status.FeePending?
    requires !HoldsId(t.fills, client, fillId)
    ensures !Inactive(Run(t, [AddFill(BlockedLater(t.fills, client, fillId))]), ByFillId(client, fillId))
  {
    var e := AddFill(BlockedLater(t.fills, client, fillId));
    var later := Step(t, e);
    assert [e][..0] == [];
    assert Run(t, [e]) == later;
    BlockedLaterIsActive(t, client, fillId, c);
    OwnKey(IdentityOf, t.observations, |observations|);
    var i :| 0 <= i < |Keys(IdentityOf, t.observations)| && Keys(IdentityOf, t.observations)[i] == IdentityOf(c);
    LatestAppended(IdentityOf, observations, c, i);
    assert Projection(later)[i].active && Projection(later)[i] in Projection(later);
  }

  /** For a fill with a fill id: the incident stays inactive over every later run exactly when, before the
      call, some fill of the order carries the id, or none matches and the fill is added. Otherwise a fill
      with that id can still arrive and be blocked. */
  lemma SettledForGoodIff(t: Tables, r: Request, o: Observation, after: Tables)
    requires Apply(t, r) == Some(after) && Selected(r, t.observations) != [] && o == Target(r, t.observations)
    requires UniqueFills(t.fills) && TextOr(o.fillId) != ""
    ensures (forall events :: Inactive(Run(after, events), IdentityOf(o))) <==> GetsId(t, r, o)
  {
    var client, fillId := Strip(o.clientOrderId), TextOr(o.fillId);
    Applied(t, r, o, after);
    AppliedInactive(t, r, o, after);
    HoldsIdAfter(t, r, o, after);
    if GetsId(t, r, o) {
      SettleKeepsUnique(t, o, FeeOf(r), Counted(r, o));
      assert MatchingFill(t.fills, o).Some? || !Counted(r, o) by { FirstByIdIff(t.fills, o); }
      FinalById(after, o, client, fillId);
      forall events ensures Inactive(Run(after, events), IdentityOf(o)) {
        FinalizedNeverActive(after, events, client, fillId);
      }
    } else {
      ReactivatedBy(after, t.observations, Completed(o), client, fillId);
    }
  }

  // ----- Fills without an id -----

  predicate FinalByTerms(fills: seq<FillRow>, o: Observation) {
    FirstFill(fills, o, false).Some? && FirstFill(fills, o, false).value.status.Finalized?
  }

  lemma StepKeepsFinalTerms(t: Tables, e: Event, o: Observation)
    requires FinalByTerms(t.fills, o)
    ensures FinalByTerms(Step(t, e).fills, o)
  {
    match e
    case AddFill(f) => FirstAppended(t.fills, o, false, f);
    case FinalizeFee(i, fee) =>
      if i < |t.fills| {
        FirstFillFinalized(t.fills, i, t.fills[i].(fee := fee, status := Finalized), o, false);
      }
    case _ =>
  }

  lemma {:induction false} RunKeepsFinalTerms(t: Tables, events: seq<Event>, o: Observation)
    requires FinalByTerms(t.fills, o)
    ensures FinalByTerms(Run(t, events).fills, o)
  {
    if events != [] {
      RunKeepsFinalTerms(t, events[..|events| - 1], o);
      StepKeepsFinalTerms(Run(t, events[..|events| - 1]), events[|events| - 1], o);
    }
  }

  lemma FinalTermsInactive(t: Tables, o: Observation, latest: Observation)
    requires FinalByTerms(t.fills, o) && TextOr(o.fillId) == "" && IdentityOf(latest) == IdentityOf(o)
    ensures !Judge(t, latest).active
  {
    MatchSame(t.fills, o, latest);
  }

  /** For a fill without a fill id: the incident stays inactive over every later run. */
  lemma SettledForGoodByTerms(t: Tables, r: Request, o: Observation, after: Tables, events: seq<Event>)
    requires Apply(t, r) == Some(after) && Selected(r, t.observations) != [] && o == Target(r, t.observations)
    requires TextOr(o.fillId) == ""
    ensures Inactive(Run(after, events), IdentityOf(o))
  {
    Applied(t, r, o, after);
    RunKeepsFinalTerms(after, events, o);
    var later := Run(after, events);
    forall i | 0 <= i < |Projection(later)| && Projection(later)[i].identity == IdentityOf(o)
      ensures !Projection(later)[i].active
    {
      FinalTermsInactive(later, o, Latest(IdentityOf, later.observations, i));
    }
  }

  // ----- Once only -----

  /** The same call again is refused: the fill is accounted for. */
  lemma CommandAppliesOnce(t: Tables, r: Request, o: Observation, after: Tables, again: Request)
    requires Apply(t, r) == Some(after) && Selected(r, t.observations) != [] && o == Target(r, t.observations)
    requires MatchingFill(t.fills, o).Some? || !Counted(r, o)
    requires again.clientOrderId == r.clientOrderId && again.fillId == r.fillId
    ensures Apply(after, again) == None
  {
    Applied(t, r, o, after);
    AgainRefused(t.observations, r, o, after, again);
  }

  lemma AgainRefused(observations: seq<Observation>, r: Request, o: Observation, after: Tables, again: Request)
    requires Selected(r, observations) != [] && o == Target(r, observations)
    requires after.observations == observations + [Completed(o)] && FinalMatch(after.fills, o)
    requires again.clientOrderId == r.clientOrderId && again.fillId == r.fillId
    ensures Apply(after, again) == None
  {
    SameSelection(r, again, observations, Completed(o));
    FinalIsRefused(after, again, o);
  }

  lemma FinalIsRefused(t: Tables, r: Request, o: Observation)
    requires Selected(r, t.observations) != [] && o == Target(r, t.observations) && FinalMatch(t.fills, o)
    ensures Apply(t, r) == None
  {
  }

  lemma SameSelection(r: Request, again: Request, observations: seq<Observation>, c: Observation)
    requires again.clientOrderId == r.clientOrderId && again.fillId == r.fillId && !c.status.FeePending?
    ensures Selected(again, observations + [c]) == Selected(r, observations)
  {
    PickedStep(PendingIn(again), observations, c);
    SamePicks(r, again, observations);
  }

  lemma {:induction false} SamePicks(r: Request, again: Request, observations: seq<Observation>)
    requires again.clientOrderId == r.clientOrderId && again.fillId == r.fillId
    ensures Selected(again, observations) == Selected(r, observations)
  {
    if observations != [] {
      SamePicks(r, again, observations[..|observations| - 1]);
    }
  }

  // ----- The repair row alone -----

  /** By itself a repair row of this fill counts as a repair exactly when its fee is not zero. */
  lemma RowCountsIff(t: Tables, r: Request, o: Observation)
    requires r.fee >= 0 && !RepairPresent(t.repairs, o) && Strip(o.clientOrderId) == o.clientOrderId
    ensures RepairPresent(t.repairs + [RepairFor(r, o)], o) <==> r.fee > 0
  {
    var row := RepairFor(r, o);
    var repairs := t.repairs + [row];
    assert RepairMatches(row, o) <==> r.fee > 0;
    assert repairs[|t.repairs|] == row;
    assert RepairPresent(repairs, o) <==> RepairMatches(row, o);
  }

  // ----- An incident that can be reopened -----

  const PENDING := Observation("c", Some("f"), 5, 1.0, 1.0, FeePending)

  /** The fill was booked without its id: the command finalises it by its terms, and nothing carries the id. */
  const BOOKED_WITHOUT_ID := Tables([PENDING], [FillRow("c", None, 5, 1.0, 1.0, 0.0, PrincipalApplied)], [])

  lemma ReopenableRequest(t: Tables, r: Request)
    requires t == BOOKED_WITHOUT_ID && r == Request("c", Some("f"), 1000000, "k", true, false, false)
    ensures Apply(t, r).Some? && Selected(r, t.observations) == [PENDING] && !GetsId(t, r, PENDING)
  {
    ShortTexts();
    assert t.observations[..0] == [];
    assert Selected(r, t.observations) == [] + [PENDING];
    var f := t.fills[0];
    assert !Matches(f, PENDING, true) && Matches(f, PENDING, false);
    assert t.fills[1..] == [];
  }

  lemma ShortTexts()
    ensures Strip("c") == "c" && Strip("f") == "f"
  {
    StripLaw("c");
    StripLaw("f");
    assert Stripped("c") && Stripped("f");
  }
}
