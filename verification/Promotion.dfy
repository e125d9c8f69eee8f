/** Reports of the comparison, the wrapper for exported artifacts, and the promotion gate. */
module Promotion {
  import opened Wrappers
  import opened Text
  import opened Equivalence

  /** Coverage checks over the fields of one normalised decision. */
  datatype Coverages = Coverages(policy: Decision -> bool, execution: Decision -> bool, submitPlan: Decision -> bool)

  /** What the lifecycle evidence supports, as its own validation decided. */
  datatype Lifecycle = Lifecycle(full: bool, simulatedFill: bool, paperFill: bool, liveSubmit: bool, replay: bool,
      position: bool)

  datatype Claims = Claims(positive: set<StateClass>, unsupported: set<StateClass>, failClosedCount: nat,
      lifecycle: Lifecycle)

  datatype Export = Export(researchSource: string, runtimeSource: string, researchHash: string, runtimeHash: string,
      bindingCodes: seq<string>)

  datatype Report = Report(
    outcome: Outcome, ok: bool, promotionGrade: bool, canonical: bool, canonicalV2: bool, codes: set<string>,
    researchCount: nat, runtimeCount: nat, incompleteCount: nat, missingFieldCount: nat, bindingCount: nat,
    policyCovered: bool, executionCovered: bool, submitPlanOk: bool, claims: Claims,
    exported: Option<Export>)

  datatype Artifact = Artifact(
    decisions: seq<Decision>, source: string, contentHash: string, profile: string, market: string, interval: string,
    dataset: string, database: string, pluginHash: string, contractVersion: string)

  // ----- Claims -----

  function ClaimsOf(m: Matrix, lifecycle: Lifecycle): Claims {
    var positive := set c: StateClass | Seen(m, c) && PositiveSupported(m, c);
    var unsupported := set c: StateClass | Seen(m, c) && FailClosed(m, c);
    Claims(positive, unsupported, FailClosedTotal(m), lifecycle)
  }

  function MissingFieldCount(rules: Rules, f: Family, ds: seq<Decision>): nat {
    if ds == [] || f.Legacy? then 0 else
      var v := rules.validate(ds[|ds| - 1]);
      MissingFieldCount(rules, f, ds[..|ds| - 1]) + if v.codes != [] then |v.missing| else 0
  }

  predicate SubmitPlanOk(cov: Coverages, c: Comparison, normals: seq<Decision>) {
    && (forall i :: 0 <= i < |normals| ==> cov.submitPlan(normals[i]))
    && (forall k :: k in c.mismatches && k in c.left && k in c.right ==>
          TextOf(c.left[k], "execution_submit_plan_hash") == TextOf(c.right[k], "execution_submit_plan_hash"))
  }

  /** The report on a comparison `c` with coverage `m`. */
  function ReportFrom(rules: Rules, cov: Coverages, input: Inputs, c: Comparison, m: Matrix,
      lifecycle: Lifecycle): Report {
    var normals := Normals(rules, c.family, input.All());
    var outcome := OutcomeOf(c, m, c.codes);
    Report(
      outcome, outcome == PassPositiveEquivalence && c.codes == {},
      !c.family.Legacy? && c.incompleteCount == 0 && c.bindingCount == 0 && outcome == PassPositiveEquivalence,
      !c.family.Legacy?, c.family.CanonicalV2?, c.codes,
      |input.research|, |input.runtime|, c.incompleteCount, MissingFieldCount(rules, c.family, input.All()),
          c.bindingCount,
      forall i :: 0 <= i < |normals| ==> cov.policy(normals[i]),
      forall i :: 0 <= i < |normals| ==> cov.execution(normals[i]),
      SubmitPlanOk(cov, c, normals), ClaimsOf(m, lifecycle), None)
  }

  function ReportOf(rules: Rules, cov: Coverages, input: Inputs, lifecycle: Lifecycle): Report {
    ReportFrom(rules, cov, input, Compare(rules, input), Coverage(rules, input), lifecycle)
  }

  // ----- Exported artifacts -----

  function SideCodes(side: string, a: Artifact, source: string, input: Inputs): seq<string> {
    When(a.source != source, side + "_export_source_mismatch")
    + When(a.profile != input.profile, side + "_export_profile_hash_mismatch")
    + When(a.market != input.market, side + "_export_market_mismatch")
    + When(a.interval != input.interval, side + "_export_interval_mismatch")
    + When(a.pluginHash == "", side + "_export_strategy_plugin_contract_hash_missing")
    + When(input.data != "" && input.data != a.dataset
        && input.data != a.database, side + "_export_data_fingerprint_mismatch")
  }

  function ArtifactCodes(research: Artifact, runtime: Artifact, input: Inputs): seq<string> {
    SideCodes("research", research, "research", input)
    + SideCodes("runtime", runtime, "runtime_replay", input)
    + When(research.profile != runtime.profile, "export_profile_hash_pair_mismatch")
    + When(research.pluginHash != "" && runtime.pluginHash != "" && research.pluginHash != runtime.pluginHash,
           "export_strategy_plugin_contract_hash_pair_mismatch")
    + When(research.contractVersion != "" && runtime.contractVersion != ""
        && research.contractVersion != runtime.contractVersion,
           "export_strategy_decision_contract_version_pair_mismatch")
  }

  /** The requested bindings with the decisions of two artifacts. */
  function Request(research: Artifact, runtime: Artifact, bound: Inputs): Inputs {
    bound.(research := research.decisions, runtime := runtime.decisions)
  }

  function SetOf(codes: seq<string>): set<string> { set i | 0 <= i < |codes| :: codes[i] }

  /** The wrapper: without artifact binding codes the outcome is computed anew from the report, with
      them it is forced. */
  function Exported(base: Report, c: Comparison, m: Matrix, e: Export): Report {
    var codes := base.codes + SetOf(e.bindingCodes);
    var clean := e.bindingCodes == [];
    var outcome := if clean then OutcomeOf(c, m, codes) else FailExportBinding;
    base.(
      outcome := outcome,
      ok := clean && outcome == PassPositiveEquivalence && codes == {},
      promotionGrade := clean && base.promotionGrade,
      codes := codes,
      exported := Some(e))
  }

  function ExportOf(research: Artifact, runtime: Artifact, bound: Inputs): Export {
    Export(research.source, runtime.source, research.contentHash, runtime.contentHash,
        ArtifactCodes(research, runtime, bound))
  }

  function ExportReport(
    rules: Rules, cov: Coverages, research: Artifact, runtime: Artifact, bound: Inputs, lifecycle: Lifecycle): Report
  {
    var input := Request(research, runtime, bound);
    Exported(ReportOf(rules, cov, input, lifecycle), Compare(rules, input), Coverage(rules, input),
             ExportOf(research, runtime, bound))
  }

  // ----- The gate -----

  datatype GateReason =
    | NotOk | NotPromotionGrade | NotCanonical | NotCanonicalV2 | NotRepoOwned | OutcomeNotPositive | NotPostExport
    | IncompleteCanonical | MissingCanonicalFields | BindingNonempty | ArtifactBindingNonempty | CodesNonempty
    | NotActualExports | PolicyCoverageMissing | ExecutionCoverageMissing | SignalScopeMissing
    | LifecycleEvidenceMissing | UnsupportedState | UnmodeledState

  function Reason(condition: bool, r: GateReason): set<GateReason> { if condition then {r} else {} }

  predicate ActualExports(e: Option<Export>) {
    && e.Some? && e.value.researchSource == "research" && e.value.runtimeSource == "runtime_replay"
    && StartsWith(e.value.researchHash, "sha256:") && StartsWith(e.value.runtimeHash, "sha256:")
  }

  function GateReasons(r: Report): set<GateReason> {
    var l := r.claims.lifecycle;
    Reason(!r.ok, NotOk) + Reason(!r.promotionGrade, NotPromotionGrade) + Reason(!r.canonical, NotCanonical)
    + Reason(!r.canonicalV2, NotCanonicalV2) + Reason(r.exported.None?, NotRepoOwned)
    + Reason(r.outcome != PassPositiveEquivalence, OutcomeNotPositive) + Reason(r.exported.None?, NotPostExport)
    + Reason(r.incompleteCount > 0, IncompleteCanonical) + Reason(r.missingFieldCount > 0, MissingCanonicalFields)
    + Reason(r.bindingCount > 0, BindingNonempty)
    + Reason(r.exported.Some? && r.exported.value.bindingCodes != [], ArtifactBindingNonempty)
    + Reason(r.codes != {}, CodesNonempty) + Reason(!ActualExports(r.exported), NotActualExports)
    + Reason(!r.policyCovered, PolicyCoverageMissing)
        + Reason(!r.executionCovered || !r.submitPlanOk, ExecutionCoverageMissing)
    + Reason(r.claims.positive == {}, SignalScopeMissing)
    + Reason(l.full && !(l.simulatedFill && l.paperFill && l.liveSubmit && l.replay && l.position),
        LifecycleEvidenceMissing)
    + Reason(r.claims.unsupported != {}, UnsupportedState) + Reason(r.claims.failClosedCount > 0, UnmodeledState)
  }

  // ----- Theorems -----

  lemma ClaimsOnCleanCoverage(m: Matrix, l: Lifecycle)
    requires FailClosedTotal(m) == 0
    ensures ClaimsOf(m, l).unsupported == {}
  {
    FailClosedTotalZeroIff(m);
  }

  /** On a positive outcome the claims list no unsupported state class. */
  lemma PassClaimsNothingUnsupported(rules: Rules, cov: Coverages, input: Inputs, lifecycle: Lifecycle)
    requires ReportOf(rules, cov, input, lifecycle).outcome == PassPositiveEquivalence
    ensures
      var claims := ReportOf(rules, cov, input, lifecycle).claims;
      claims.unsupported == {} && claims.failClosedCount == 0
  {
    var c, m := Compare(rules, input), Coverage(rules, input);
    PassIffClean(c, m);
    ClaimsOnCleanCoverage(m, lifecycle);
  }

  lemma NothingSeen(m: Matrix)
    requires m == EMPTY_MATRIX
    ensures forall s :: !Seen(m, s)
  {
  }

  lemma EmptyNothingSeen(rules: Rules, input: Inputs)
    ensures input.All() == [] ==> forall s :: !Seen(Coverage(rules, input), s)
  {
    if input.All() == [] {
      assert input.research == [] && input.runtime == [];
      NothingSeen(Coverage(rules, input));
    }
  }

  lemma EmptyIsEquivalent(rules: Rules, input: Inputs, c: Comparison, m: Matrix)
    requires c == Compare(rules, input) && m == Coverage(rules, input)
    requires input.research == [] && input.runtime == []
    ensures Equivalent(rules, input, m) && c.codes == {}
        && ClaimsOf(m, Lifecycle(false, false, false, false, false, false)).positive == {}
  {
    assert input.All() == [];
    EmptyNothingSeen(rules, input);
    assert c.family == CanonicalV2;
    assert c.left == map[] && c.right == map[];
    CleanIff(rules, input, c);
  }

  /** The plain comparison passes on two empty lists, whatever they are to be bound to, but the gate
      does not let the report through, exported or not. */
  lemma EmptyListsPassButFailGate(rules: Rules, cov: Coverages, input: Inputs, lifecycle: Lifecycle, r: Report,
      e: Option<Export>)
    requires input.research == [] && input.runtime == []
    requires r == ReportOf(rules, cov, input, lifecycle)
    ensures r.outcome == PassPositiveEquivalence && r.ok
    ensures SignalScopeMissing in GateReasons(r.(exported := e))
  {
    var c, m := Compare(rules, input), Coverage(rules, input);
    EmptyIsEquivalent(rules, input, c, m);
    PassIffEquivalent(rules, input, c, m);
    NoPositiveClass(m, lifecycle, r, e);
  }

  lemma NoPositiveClass(m: Matrix, lifecycle: Lifecycle, r: Report, e: Option<Export>)
    requires r.claims == ClaimsOf(m, lifecycle)
    requires ClaimsOf(m, Lifecycle(false, false, false, false, false, false)).positive == {}
    ensures SignalScopeMissing in GateReasons(r.(exported := e))
  {
  }

  /** The wrapper leaves outcome, verdict and codes alone when artifact binding is clean, and otherwise
      forces the binding failure, which the gate refuses. */
  lemma WrapperLaw(base: Report, c: Comparison, m: Matrix, e: Export, r: Report)
    requires r == Exported(base, c, m, e)
    requires base.outcome == OutcomeOf(c, m, base.codes)
    requires base.ok <==> base.outcome == PassPositiveEquivalence && base.codes == {}
    ensures e.bindingCodes == [] ==> r == base.(exported := Some(e))
    ensures e.bindingCodes != [] ==>
              r.outcome == FailExportBinding && !r.ok && !r.promotionGrade && r.codes != {} && GateReasons(r) != {}
  {
    if e.bindingCodes == [] {
      assert SetOf(e.bindingCodes) == {};
      assert base.codes + SetOf(e.bindingCodes) == base.codes;
    } else {
      assert e.bindingCodes[0] in SetOf(e.bindingCodes);
      assert e.bindingCodes[0] in r.codes;
      assert NotOk in GateReasons(r);
    }
  }

  lemma GateClearMeans(r: Report)
    requires GateReasons(r) == {}
    ensures r.ok && r.promotionGrade && r.canonicalV2 && r.outcome == PassPositiveEquivalence
    ensures r.codes == {} && r.claims.positive != {} && r.claims.unsupported == {}
    ensures r.policyCovered && r.executionCovered && ActualExports(r.exported) && r.exported.value.bindingCodes == []
  {
    assert NotOk !in GateReasons(r) && NotPromotionGrade !in GateReasons(r) && NotCanonicalV2 !in GateReasons(r);
    assert OutcomeNotPositive !in GateReasons(r) && CodesNonempty !in GateReasons(r);
    assert SignalScopeMissing !in GateReasons(r) && UnsupportedState !in GateReasons(r);
    assert PolicyCoverageMissing !in GateReasons(r) && ExecutionCoverageMissing !in GateReasons(r);
    assert NotActualExports !in GateReasons(r) && ArtifactBindingNonempty !in GateReasons(r);
  }

  lemma KeysEmptyIff(rules: Rules, f: Family, ds: seq<Decision>)
    ensures KeysOf(rules, Normals(rules, f, ds)) == {} <==> ds == []
  {
    if ds != [] {
      assert Normals(rules, f, ds)[0] in Normals(rules, f, ds);
      assert rules.keyOf(Normals(rules, f, ds)[0]) in KeysOf(rules, Normals(rules, f, ds));
    }
  }

  /** An equivalent, covered comparison has decisions on both sides. */
  lemma BothSidesCompared(rules: Rules, input: Inputs, m: Matrix, s: StateClass)
    requires m == Coverage(rules, input) && Seen(m, s) && Equivalent(rules, input, m)
    ensures input.research != [] && input.runtime != []
  {
    KeysEmptyIff(rules, FamilyOf(input.All()), input.research);
    KeysEmptyIff(rules, FamilyOf(input.All()), input.runtime);
    EmptyNothingSeen(rules, input);
  }

  lemma FamilyV2Means(input: Inputs)
    requires FamilyOf(input.All()) == CanonicalV2
    ensures AllV2(input.research) && AllV2(input.runtime)
  {
    assert forall i :: 0 <= i < |input.research| ==> input.research[i] == input.All()[i];
    assert forall i :: 0 <= i < |input.runtime| ==> input.runtime[i] == input.All()[|input.research| + i];
  }

  /** A positive outcome with some positive class under the second contract version. */
  lemma ClearedIsEquivalent(rules: Rules, input: Inputs, c: Comparison, m: Matrix, lifecycle: Lifecycle)
    requires c == Compare(rules, input) && m == Coverage(rules, input) && FamilyOf(input.All()) == CanonicalV2
    requires OutcomeOf(c, m, c.codes) == PassPositiveEquivalence && ClaimsOf(m, lifecycle).positive != {}
    ensures input.research != [] && input.runtime != []
    ensures AllV2(input.research) && AllV2(input.runtime)
    ensures Equivalent(rules, input, m)
  {
    PassIffEquivalent(rules, input, c, m);
    var s :| s in ClaimsOf(m, lifecycle).positive;
    BothSidesCompared(rules, input, m, s);
    FamilyV2Means(input);
  }

  lemma ClearedReport(
    rules: Rules, cov: Coverages, input: Inputs, c: Comparison, m: Matrix, lifecycle: Lifecycle, e: Export, r: Report)
    requires c == Compare(rules, input) && m == Coverage(rules, input)
    requires r == Exported(ReportFrom(rules, cov, input, c, m, lifecycle), c, m, e) && GateReasons(r) == {}
    ensures OutcomeOf(c, m, c.codes) == PassPositiveEquivalence && ClaimsOf(m, lifecycle).positive != {}
    ensures FamilyOf(input.All()) == CanonicalV2
  {
    GateClearMeans(r);
    WrapperLaw(ReportFrom(rules, cov, input, c, m, lifecycle), c, m, e, r);
  }

  /** Every export report that clears the gate compared at least one decision on each side, and those
      decisions are equivalent under the second contract version. */
  lemma GateSound(
    rules: Rules, cov: Coverages, research: Artifact, runtime: Artifact, bound: Inputs, lifecycle: Lifecycle,
    input: Inputs, c: Comparison, m: Matrix)
    requires input == Request(research, runtime, bound) && c == Compare(rules, input) && m == Coverage(rules, input)
    requires GateReasons(ExportReport(rules, cov, research, runtime, bound, lifecycle)) == {}
    ensures research.decisions != [] && runtime.decisions != []
    ensures AllV2(research.decisions) && AllV2(runtime.decisions)
    ensures Equivalent(rules, input, m)
  {
    var e := ExportOf(research, runtime, bound);
    ClearedReport(rules, cov, input, c, m, lifecycle, e, ExportReport(rules, cov, research, runtime, bound, lifecycle));
    ClearedIsEquivalent(rules, input, c, m, lifecycle);
  }

  // ----- Exactly what clears the gate -----

  predicate LifecycleShown(l: Lifecycle) {
    l.full ==> l.simulatedFill && l.paperFill && l.liveSubmit && l.replay && l.position
  }

  /** Everything the gate asks of a report. */
  predicate Cleared(r: Report) {
    && r.ok && r.promotionGrade && r.canonical && r.canonicalV2 && r.outcome == PassPositiveEquivalence
    && r.incompleteCount == 0 && r.missingFieldCount == 0 && r.bindingCount == 0 && r.codes == {}
    && ActualExports(r.exported) && r.exported.value.bindingCodes == []
    && r.policyCovered && r.executionCovered && r.submitPlanOk
    && r.claims.positive != {} && r.claims.unsupported == {} && r.claims.failClosedCount == 0
    && LifecycleShown(r.claims.lifecycle)
  }

  lemma GateClearIff(r: Report)
    ensures GateReasons(r) == {} <==> Cleared(r)
  {
    if GateReasons(r) == {} {
      GateClearMeans(r);
      assert NotCanonical !in GateReasons(r) && IncompleteCanonical !in GateReasons(r);
      assert MissingCanonicalFields !in GateReasons(r) && BindingNonempty !in GateReasons(r);
      assert ExecutionCoverageMissing !in GateReasons(r) && LifecycleEvidenceMissing !in GateReasons(r);
      assert UnmodeledState !in GateReasons(r);
    }
  }

  /** Valid decisions have no missing fields. */
  lemma {:induction false} NothingMissing(rules: Rules, f: Family, ds: seq<Decision>)
    requires AllValid(rules, ds)
    ensures MissingFieldCount(rules, f, ds) == 0
  {
    if ds != [] {
      NothingMissing(rules, f, ds[..|ds| - 1]);
      assert ds[|ds| - 1] in ds;
    }
  }

  lemma SomethingSeen(m: Matrix)
    ensures SourceTotal(m, Research) == 0 || exists s :: Seen(m, s)
  {
    if forall s :: !Seen(m, s) {
      assert !Seen(m, Flat) && !Seen(m, OpenExposure) && !Seen(m, ReservedExitPending) && !Seen(m, DustOnly);
      assert !Seen(m, NonExecutablePosition) && !Seen(m, RecoveryBlocked);
      assert !Seen(m, RuntimeNotComparable) && !Seen(m, ResearchLacksAuthority);
    }
  }

  /** Equivalent decisions under the second contract version make a report without a blemish. */
  lemma EquivalentReport(rules: Rules, cov: Coverages, input: Inputs, c: Comparison, m: Matrix, lifecycle: Lifecycle,
      r: Report)
    requires c == Compare(rules, input) && m == Coverage(rules, input)
        && r == ReportFrom(rules, cov, input, c, m, lifecycle)
    requires FamilyOf(input.All()) == CanonicalV2 && Equivalent(rules, input, m) && input.research != []
    ensures r.outcome == PassPositiveEquivalence && r.ok && r.promotionGrade && r.canonical && r.canonicalV2
    ensures r.codes == {} && r.incompleteCount == 0 && r.bindingCount == 0 && r.missingFieldCount == 0
    ensures r.claims.positive != {} && r.claims.unsupported == {} && r.claims.failClosedCount == 0
  {
    PassIffEquivalent(rules, input, c, m);
    CompareShape(rules, input, c);
    OutcomePassIff(c, m, c.codes);
    NothingMissing(rules, c.family, input.All());
    ClaimsOnCleanCoverage(m, lifecycle);
    CoverageConserved(rules, input, Research);
    SomethingSeen(m);
    var s :| Seen(m, s);
    FailClosedTotalZeroIff(m);
    assert s in ClaimsOf(m, lifecycle).positive;
  }

  /** The field coverage that the gate asks for. */
  predicate Covered(r: Report) { r.policyCovered && r.executionCovered && r.submitPlanOk }

  /** The gate lets an export report through exactly when the decisions are equivalent under the second
      contract version, there are some, the artifacts are real exports bound to the request, and the
      field coverage and the claimed lifecycle evidence are complete. */
  lemma GateIff(
    rules: Rules, cov: Coverages, research: Artifact, runtime: Artifact, bound: Inputs, lifecycle: Lifecycle,
    input: Inputs, c: Comparison, m: Matrix, base: Report)
    requires input == Request(research, runtime, bound) && c == Compare(rules, input) && m == Coverage(rules, input)
    requires base == ReportFrom(rules, cov, input, c, m, lifecycle)
    ensures GateReasons(ExportReport(rules, cov, research, runtime, bound, lifecycle)) == {} <==>
      && FamilyOf(input.All()) == CanonicalV2 && Equivalent(rules, input, m) && research.decisions != []
      && ArtifactCodes(research, runtime, bound) == [] && ActualExports(Some(ExportOf(research, runtime, bound)))
      && Covered(base) && LifecycleShown(lifecycle)
  {
    var e := ExportOf(research, runtime, bound);
    var r := Exported(base, c, m, e);
    if GateReasons(r) == {} {
      ClearedReport(rules, cov, input, c, m, lifecycle, e, r);
      ClearedIsEquivalent(rules, input, c, m, lifecycle);
      ClearedExport(base, c, m, e, r);
    } else if FamilyOf(input.All()) == CanonicalV2 && Equivalent(rules, input, m) && research.decisions != [] {
      EquivalentReport(rules, cov, input, c, m, lifecycle, base);
      CleanExport(base, c, m, e, r);
    }
  }

  lemma ClearedExport(base: Report, c: Comparison, m: Matrix, e: Export, r: Report)
    requires r == Exported(base, c, m, e) && GateReasons(r) == {}
    ensures e.bindingCodes == [] && ActualExports(Some(e)) && Covered(base) && LifecycleShown(base.claims.lifecycle)
  {
    GateClearIff(r);
  }

  /** The wrapper adds nothing to a report without a blemish, so only exports, coverage and lifecycle count. */
  lemma CleanExport(base: Report, c: Comparison, m: Matrix, e: Export, r: Report)
    requires r == Exported(base, c, m, e) && base.outcome == OutcomeOf(c, m, base.codes)
    requires base.outcome == PassPositiveEquivalence && base.ok && base.promotionGrade && base.canonical
        && base.canonicalV2
    requires base.codes == {} && base.incompleteCount == 0 && base.bindingCount == 0 && base.missingFieldCount == 0
    requires base.claims.positive != {} && base.claims.unsupported == {} && base.claims.failClosedCount == 0
    ensures e.bindingCodes == [] && ActualExports(Some(e)) && Covered(base) && LifecycleShown(base.claims.lifecycle)
      ==> GateReasons(r) == {}
  {
    GateClearIff(r);
    WrapperLaw(base, c, m, e, r);
  }

  // ----- Reports that clear the gate -----

  /** A decision of the second version that is normal, valid, flat and bound. */
  ghost predicate FlatDecision(rules: Rules, input: Inputs, d: Decision) {
    && d.version >= 2 && rules.normalize(d) == d && rules.validate(d).codes == []
    && rules.classify(d, Research) == (Known(Flat), "") && rules.classify(d, Runtime) == (Known(Flat), "")
    && BoundTo(input, d)
  }

  lemma AddOne(rules: Rules, m: Matrix, d: Decision, s: Source)
    ensures AddAll(rules, m, [d], s) == AddDecision(rules, m, d, s)
  {
    assert [d][..0] == [];
  }

  lemma FlatCoverage(rules: Rules, input: Inputs, d: Decision, m: Matrix)
    requires FlatDecision(rules, input, d) && input.research == [d] && input.runtime == [d]
        && m == Coverage(rules, input)
    ensures forall s :: Seen(m, s) ==> s == Flat
  {
    AddOne(rules, EMPTY_MATRIX, d, Research);
    var one := AddDecision(rules, EMPTY_MATRIX, d, Research);
    AddOne(rules, one, d, Runtime);
    forall s | s != Flat ensures !Seen(m, s) {
      assert m.At(s) == one.At(s) == EMPTY_MATRIX.At(s);
    }
  }

  lemma FlatEquivalent(rules: Rules, input: Inputs, d: Decision, m: Matrix)
    requires FlatDecision(rules, input, d) && input.research == [d] && input.runtime == [d]
        && m == Coverage(rules, input)
    ensures FamilyOf(input.All()) == CanonicalV2 && Equivalent(rules, input, m)
  {
    assert input.All() == [d, d];
    assert Normals(rules, CanonicalV2, [d]) == [d];
    FlatCoverage(rules, input, d, m);
  }

  lemma NoMismatchCovers(
    rules: Rules, cov: Coverages, input: Inputs, d: Decision, c: Comparison, m: Matrix, l: Lifecycle, base: Report)
    requires base == ReportFrom(rules, cov, input, c, m, l) && c.mismatches == map[]
    requires Normals(rules, c.family, input.All()) == [d, d] && cov.policy(d) && cov.execution(d) && cov.submitPlan(d)
    ensures Covered(base)
  {
  }

  lemma EquivalentHasNoMismatch(rules: Rules, input: Inputs, c: Comparison, m: Matrix)
    requires c == Compare(rules, input) && m == Coverage(rules, input) && Equivalent(rules, input, m)
    ensures c.mismatches == map[] && c.family == FamilyOf(input.All())
  {
    PassIffEquivalent(rules, input, c, m);
    OutcomePassIff(c, m, c.codes);
    CompareShape(rules, input, c);
  }

  lemma TwoNormals(rules: Rules, f: Family, input: Inputs, d: Decision)
    requires rules.normalize(d) == d && input.research == [d] && input.runtime == [d]
    ensures Normals(rules, f, input.All()) == [d, d]
  {
    assert input.All() == [d, d];
  }

  /** The gate is not always closed: one flat, valid, bound and covered decision on both sides of two real
      exports clears it, when no lifecycle is claimed. */
  lemma FlatExportClears(
    rules: Rules, cov: Coverages, research: Artifact, runtime: Artifact, bound: Inputs, l: Lifecycle, d: Decision,
    input: Inputs, c: Comparison, m: Matrix, base: Report)
    requires input == Request(research, runtime, bound) && c == Compare(rules, input) && m == Coverage(rules, input)
    requires base == ReportFrom(rules, cov, input, c, m, l) && !l.full
    requires research.decisions == [d] && runtime.decisions == [d] && FlatDecision(rules, input, d)
    requires cov.policy(d) && cov.execution(d) && cov.submitPlan(d)
    requires ArtifactCodes(research, runtime, bound) == [] && ActualExports(Some(ExportOf(research, runtime, bound)))
    ensures GateReasons(ExportReport(rules, cov, research, runtime, bound, l)) == {}
  {
    FlatEquivalent(rules, input, d, m);
    EquivalentHasNoMismatch(rules, input, c, m);
    TwoNormals(rules, c.family, input, d);
    NoMismatchCovers(rules, cov, input, d, c, m, l, base);
    GateIff(rules, cov, research, runtime, bound, l, input, c, m, base);
  }

  function ExportOfOne(d: Decision, source: string): Artifact {
    Artifact([d], source, "sha256:", "", "", "", "", "", "p", "")
  }

  /** Such exports exist. */
  lemma RealExports(d: Decision, research: Artifact, runtime: Artifact, bound: Inputs)
    requires research == ExportOfOne(d, "research") && runtime == ExportOfOne(d, "runtime_replay")
    requires bound == Inputs([], [], "", "", "", "")
    ensures ArtifactCodes(research, runtime, bound) == [] && ActualExports(Some(ExportOf(research, runtime, bound)))
  {
  }
}
