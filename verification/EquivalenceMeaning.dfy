/** What a positive outcome and a cleared gate say, in terms of the two decision lists, the rules and the
    artifacts alone. */
module EquivalenceMeaning {
  import opened Wrappers
  import opened Text
  import opened Equivalence
  import opened Promotion

  // ----- The state classes of the decisions -----

  /** The class a decision is counted under: the listed one it names, or a catch-all of its side. */
  predicate InClass(rules: Rules, d: Decision, s: Source, k: StateClass) {
    match rules.classify(d, s).0
    case Known(named) => k == named
    case Unlisted => k == (match s case Research => ResearchLacksAuthority case Runtime => RuntimeNotComparable)
    case Unnamed => k == (match s case Research => ResearchLacksAuthority case Runtime => RuntimeNotComparable)
  }

  /** Its class is given with a reason why it is not supported. */
  predicate Objected(rules: Rules, d: Decision, s: Source) { rules.classify(d, s).1 != "" }

  ghost predicate AnyOf(p: Decision -> bool, ds: seq<Decision>) { exists i :: 0 <= i < |ds| && p(ds[i]) }

  function Inside(rules: Rules, s: Source, k: StateClass): Decision -> bool { d => InClass(rules, d, s, k) }

  function InsideObjected(rules: Rules, s: Source, k: StateClass): Decision -> bool {
    d => InClass(rules, d, s, k) && Objected(rules, d, s)
  }

  function InsideSupported(rules: Rules, s: Source, k: StateClass): Decision -> bool {
    d => InClass(rules, d, s, k) && !Objected(rules, d, s) && rules.supports(d)
  }

  ghost predicate SomeIn(rules: Rules, ds: seq<Decision>, s: Source, k: StateClass) { AnyOf(Inside(rules, s, k), ds) }

  ghost predicate SomeObjected(rules: Rules, ds: seq<Decision>, s: Source, k: StateClass) {
    AnyOf(InsideObjected(rules, s, k), ds)
  }

  ghost predicate SomeSupported(rules: Rules, ds: seq<Decision>, s: Source, k: StateClass) {
    AnyOf(InsideSupported(rules, s, k), ds)
  }

  /** Every class that occurs, other than flat, has a supported decision and none that is objected to. */
  ghost predicate Modelled(rules: Rules, input: Inputs) {
    forall k ::
      k != Flat && (SomeIn(rules, input.research, Research, k) || SomeIn(rules, input.runtime, Runtime, k)) ==>
      && (SomeSupported(rules, input.research, Research, k) || SomeSupported(rules, input.runtime, Runtime, k))
      && !SomeObjected(rules, input.research, Research, k) && !SomeObjected(rules, input.runtime, Runtime, k)
  }

  /** What one list adds to the entry of a class. */
  predicate Adds(before: nat, after: nat, some: bool) { after >= before && (after > before <==> some) }

  lemma {:induction false} AddAllCounts(rules: Rules, m: Matrix, ds: seq<Decision>, s: Source, k: StateClass)
    ensures
      var before, after := m.At(k), AddAll(rules, m, ds, s).At(k);
      && Adds(before.research, after.research, s.Research? && SomeIn(rules, ds, s, k))
      && Adds(before.runtime, after.runtime, s.Runtime? && SomeIn(rules, ds, s, k))
      && Adds(before.supported, after.supported, SomeSupported(rules, ds, s, k))
      && Adds(before.unsupported, after.unsupported, SomeObjected(rules, ds, s, k))
  {
    if ds != [] {
      var init, d := ds[..|ds| - 1], ds[|ds| - 1];
      AddAllCounts(rules, m, init, s, k);
      SomeStep(rules, ds, s, k);
      AddOneCounts(rules, AddAll(rules, m, init, s), d, s, k);
    }
  }

  lemma SomeStep(rules: Rules, ds: seq<Decision>, s: Source, k: StateClass)
    requires ds != []
    ensures
      var init, d := ds[..|ds| - 1], ds[|ds| - 1];
      && (SomeIn(rules, ds, s, k) <==> SomeIn(rules, init, s, k) || InClass(rules, d, s, k))
      && (SomeObjected(rules, ds, s, k) <==>
            SomeObjected(rules, init, s, k) || (InClass(rules, d, s, k) && Objected(rules, d, s)))
      && (SomeSupported(rules, ds, s, k) <==>
            SomeSupported(rules, init, s, k) || (InClass(rules, d, s, k) && !Objected(rules, d, s)
                && rules.supports(d)))
  {
    AnyStep(Inside(rules, s, k), ds);
    AnyStep(InsideObjected(rules, s, k), ds);
    AnyStep(InsideSupported(rules, s, k), ds);
  }

  lemma AnyStep(p: Decision -> bool, ds: seq<Decision>)
    requires ds != []
    ensures AnyOf(p, ds) <==> AnyOf(p, ds[..|ds| - 1]) || p(ds[|ds| - 1])
  {
    var init := ds[..|ds| - 1];
    if AnyOf(p, init) {
      var i :| 0 <= i < |init| && p(init[i]);
      assert p(ds[i]);
    }
    if AnyOf(p, ds) && !p(ds[|ds| - 1]) {
      var i :| 0 <= i < |ds| && p(ds[i]);
      assert p(init[i]);
    }
  }

  lemma AddOneCounts(rules: Rules, m: Matrix, d: Decision, s: Source, k: StateClass)
    ensures
      var before, after := m.At(k), AddDecision(rules, m, d, s).At(k);
      && Adds(before.research, after.research, s.Research? && InClass(rules, d, s, k))
      && Adds(before.runtime, after.runtime, s.Runtime? && InClass(rules, d, s, k))
      && Adds(before.supported, after.supported, InClass(rules, d, s, k) && !Objected(rules, d, s) && rules.supports(d))
      && Adds(before.unsupported, after.unsupported, InClass(rules, d, s, k) && Objected(rules, d, s))
  {
    assert InClass(rules, d, s, k) <==> k == ClassOf(rules, d, s);
  }

  lemma CoverageOf(rules: Rules, input: Inputs, m: Matrix, k: StateClass)
    requires m == Coverage(rules, input)
    ensures Seen(m, k) <==> SomeIn(rules, input.research, Research, k) || SomeIn(rules, input.runtime, Runtime, k)
    ensures m.At(k).supported > 0 <==>
            SomeSupported(rules, input.research, Research, k) || SomeSupported(rules, input.runtime, Runtime, k)
    ensures m.At(k).unsupported > 0 <==>
            SomeObjected(rules, input.research, Research, k) || SomeObjected(rules, input.runtime, Runtime, k)
  {
    var one := AddAll(rules, EMPTY_MATRIX, input.research, Research);
    AddAllCounts(rules, EMPTY_MATRIX, input.research, Research, k);
    AddAllCounts(rules, one, input.runtime, Runtime, k);
    EmptyEntry(k);
  }

  lemma EmptyEntry(k: StateClass)
    ensures EMPTY_MATRIX.At(k) == Entry(0, 0, 0, 0)
  {
  }

  lemma ModelledIff(rules: Rules, input: Inputs, m: Matrix)
    requires m == Coverage(rules, input)
    ensures (forall k :: Seen(m, k) ==> PositiveSupported(m, k)) <==> Modelled(rules, input)
  {
    forall k ensures k != Flat ==> (PositiveSupported(m, k) <==> m.At(k).supported > 0 && m.At(k).unsupported == 0) {
    }
    forall k
      ensures Seen(m, k) <==> SomeIn(rules, input.research, Research, k) || SomeIn(rules, input.runtime, Runtime, k)
      ensures m.At(k).supported > 0 <==>
              SomeSupported(rules, input.research, Research, k) || SomeSupported(rules, input.runtime, Runtime, k)
      ensures m.At(k).unsupported > 0 <==>
              SomeObjected(rules, input.research, Research, k) || SomeObjected(rules, input.runtime, Runtime, k)
    {
      CoverageOf(rules, input, m, k);
    }
  }

  ghost predicate Occurs(rules: Rules, input: Inputs, k: StateClass) {
    SomeIn(rules, input.research, Research, k) || SomeIn(rules, input.runtime, Runtime, k)
  }

  /** The flat class; or one with a supported decision and none that is objected to. */
  ghost predicate Claimable(rules: Rules, input: Inputs, k: StateClass) {
    || k == Flat
    || (&& (SomeSupported(rules, input.research, Research, k) || SomeSupported(rules, input.runtime, Runtime, k))
        && !SomeObjected(rules, input.research, Research, k) && !SomeObjected(rules, input.runtime, Runtime, k))
  }

  /** The classes that a report claims, and those that it lists as unsupported. */
  lemma ClaimsAre(rules: Rules, input: Inputs, m: Matrix, l: Lifecycle, k: StateClass)
    requires m == Coverage(rules, input)
    ensures k in ClaimsOf(m, l).positive <==> Occurs(rules, input, k) && Claimable(rules, input, k)
    ensures k in ClaimsOf(m, l).unsupported <==> Occurs(rules, input, k) && !Claimable(rules, input, k)
  {
    CoverageOf(rules, input, m, k);
  }

  // ----- What PASS says -----

  /** The text of a field, empty when the decision does not have it. */
  lemma TextOfIs(d: Decision, f: string)
    ensures TextOf(d, f) == if f in d.fields then d.fields[f] else ""
  {
  }

  ghost predicate AllSecond(ds: seq<Decision>) { forall d :: d in ds ==> d.version >= 2 }

  ghost predicate AllFirst(ds: seq<Decision>) { forall d :: d in ds ==> d.version == 1 }

  /** Every decision normalised, in place. */
  function Normalised(rules: Rules, ds: seq<Decision>): (r: seq<Decision>)
    ensures |r| == |ds| && forall i :: 0 <= i < |r| ==> r[i] == rules.normalize(ds[i])
  {
    seq(|ds|, i requires 0 <= i < |ds| => rules.normalize(ds[i]))
  }

  /** Two decisions have the same text in every comparison field; and the same position authority when both
      support it and not both are flat. */
  ghost predicate PairAgrees(rules: Rules, fields: seq<string>, left: Decision, right: Decision) {
    && (forall i :: 0 <= i < |fields| ==> TextOf(left, fields[i]) == TextOf(right, fields[i]))
    && (&& rules.supports(left) && rules.supports(right)
        && !(rules.classify(left, Research).0 == Known(Flat) && rules.classify(right, Runtime).0 == Known(Flat))
        ==> left.authority == right.authority)
  }

  ghost predicate LastPairsAgree(rules: Rules, fields: seq<string>, research: seq<Decision>, runtime: seq<Decision>) {
    forall i: nat, j: nat ::
      IsLast(rules, research, i) && IsLast(rules, runtime, j) && rules.keyOf(research[i]) == rules.keyOf(runtime[j])
      ==> PairAgrees(rules, fields, research[i], runtime[j])
  }

  /** The two lists are equivalent. */
  ghost predicate SameDecisions(rules: Rules, input: Inputs) {
    var research, runtime := Normalised(rules, input.research), Normalised(rules, input.runtime);
    && (AllSecond(input.All()) || AllFirst(input.All()))
    && (forall d :: d in input.All() ==> rules.validate(d).codes == [])
    && AllBound(rules, input)
    && KeysOf(rules, research) == KeysOf(rules, runtime)
    && LastPairsAgree(rules, if AllSecond(input.All()) then rules.v2Fields else rules.v1Fields, research, runtime)
    && Modelled(rules, input)
  }

  lemma FamilyIs(ds: seq<Decision>)
    ensures FamilyOf(ds) == CanonicalV2 <==> AllSecond(ds)
    ensures FamilyOf(ds) == CanonicalV1 <==> AllFirst(ds) && !AllSecond(ds)
  {
    assert forall i :: 0 <= i < |ds| ==> ds[i] in ds;
    if AllFirst(ds) && !AllSecond(ds) {
      var d :| d in ds && d.version < 2;
    }
    if FamilyOf(ds) == CanonicalV2 {
      assert AllV2(ds);
    }
    if FamilyOf(ds) == CanonicalV1 {
      assert AllV1(ds) && !AllV2(ds);
    }
  }

  lemma NormalsAre(rules: Rules, f: Family, ds: seq<Decision>)
    requires !f.Legacy?
    ensures Normals(rules, f, ds) == Normalised(rules, ds)
  {
  }

  lemma LastAgreeIs(rules: Rules, f: Family, research: seq<Decision>, runtime: seq<Decision>)
    requires f.CanonicalV2? || f.CanonicalV1?
    ensures LastAgree(rules, f, research, runtime) <==>
            LastPairsAgree(rules, if f.CanonicalV2? then rules.v2Fields else rules.v1Fields, research, runtime)
  {
    var fields := if f.CanonicalV2? then rules.v2Fields else rules.v1Fields;
    forall left, right ensures Agree(rules, f, left, right) <==> PairAgrees(rules, fields, left, right) {
      PairIs(rules, f, left, right);
    }
  }

  lemma PairIs(rules: Rules, f: Family, left: Decision, right: Decision)
    requires f.CanonicalV2? || f.CanonicalV1?
    ensures Agree(rules, f, left, right) <==>
            PairAgrees(rules, if f.CanonicalV2? then rules.v2Fields else rules.v1Fields, left, right)
  {
  }

  lemma EquivalentIs(rules: Rules, input: Inputs, m: Matrix)
    requires m == Coverage(rules, input)
    ensures Equivalent(rules, input, m) <==> SameDecisions(rules, input)
  {
    var f := FamilyOf(input.All());
    FamilyIs(input.All());
    ModelledIff(rules, input, m);
    if f.CanonicalV2? || f.CanonicalV1? {
      NormalsAre(rules, f, input.research);
      NormalsAre(rules, f, input.runtime);
      LastAgreeIs(rules, f, Normalised(rules, input.research), Normalised(rules, input.runtime));
    }
  }

  /** The outcome is positive exactly when the two lists are equivalent. */
  lemma PassIff(rules: Rules, input: Inputs, c: Comparison, m: Matrix)
    requires c == Compare(rules, input) && m == Coverage(rules, input)
    ensures OutcomeOf(c, m, c.codes) == PassPositiveEquivalence <==> SameDecisions(rules, input)
  {
    PassIffEquivalent(rules, input, c, m);
    EquivalentIs(rules, input, m);
  }

  /** A canonical decision that is bound to something else forces the binding failure. */
  lemma UnboundFails(rules: Rules, input: Inputs, c: Comparison, m: Matrix)
    requires c == Compare(rules, input) && m == Coverage(rules, input)
    requires (forall d :: d in input.All() ==> d.version >= 1) && !AllBound(rules, input)
    ensures OutcomeOf(c, m, c.codes) == FailExportBinding
  {
    assert c.bindingCount > 0 by { UnboundCounted(rules, input, c); }
  }

  lemma UnboundCounted(rules: Rules, input: Inputs, c: Comparison)
    requires c == Compare(rules, input)
    requires (forall d :: d in input.All() ==> d.version >= 1) && !AllBound(rules, input)
    ensures c.bindingCount > 0
  {
    var f := FamilyOf(input.All());
    NotLegacy(input.All());
    assert CountNonEmpty(BindingLists(rules, input, f, input.All())) > 0 by { BindingEmptyIff(rules, input, f); }
  }

  lemma NotLegacy(ds: seq<Decision>)
    requires forall d :: d in ds ==> d.version >= 1
    ensures !FamilyOf(ds).Legacy?
  {
    assert forall i :: 0 <= i < |ds| ==> ds[i] in ds;
  }

  // ----- The other outcomes -----

  /** A mismatch in the dust of a position alone, where some side is not flat. */
  ghost predicate DustAlone(m: Mismatch) {
    && "decision_position_dust_mismatch" in m.codes
    && (forall code <- m.codes :: code == "decision_position_dust_mismatch")
    && exists k <- m.classes :: k != Known(Flat)
  }

  /** Decisions without a partner, or that differ in more than the dust of a position. */
  ghost predicate Drifts(c: Comparison) {
    c.missingResearch != {} || c.missingRuntime != {} || exists k <- c.mismatches :: !DustAlone(c.mismatches[k])
  }

  lemma LifecycleIff(m: Mismatch)
    ensures LifecycleOnly(m) <==> DustAlone(m)
  {
    forall i | 0 <= i < |m.codes| ensures m.codes[i] in m.codes {
    }
    if LifecycleOnly(m) {
      assert m.codes[0] in m.codes;
    }
  }

  lemma DriftIff(c: Comparison)
    ensures ActualDrift(c) > 0 <==> Drifts(c)
  {
    var other := c.mismatches.Keys - LifecycleKeys(c.mismatches);
    forall k | k in c.mismatches ensures k in other <==> !DustAlone(c.mismatches[k]) {
      LifecycleIff(c.mismatches[k]);
    }
    assert |other| == 0 <==> other == {};
  }

  predicate PartAt(text: string, part: string, i: nat) { i <= |text| && part <= text[i..] }

  /** The text has this part somewhere. */
  ghost predicate HasPart(text: string, part: string) { exists i: nat :: PartAt(text, part, i) }

  lemma {:induction false} ContainsIff(text: string, part: string)
    ensures Contains(text, part) <==> HasPart(text, part)
  {
    assert text[0..] == text;
    if part <= text {
      assert PartAt(text, part, 0);
    }
    if text == [] {
      forall i: nat ensures PartAt(text, part, i) ==> part <= text {
      }
    } else if !(part <= text) {
      ContainsIff(text[1..], part);
      if i: nat :| PartAt(text[1..], part, i) {
        assert text[1..][i..] == text[i + 1..];
        assert PartAt(text, part, i + 1);
      }
      if i: nat :| PartAt(text, part, i) {
        PartLater(text, part, i);
      }
    }
  }

  lemma PartLater(text: string, part: string, i: nat)
    requires PartAt(text, part, i) && !(part <= text) && text != []
    ensures HasPart(text[1..], part)
  {
    assert text[0..] == text;
    assert i > 0;
    assert text[1..][i - 1..] == text[i..];
    assert PartAt(text[1..], part, i - 1);
  }

  /** Some code says that an export or a decision is bound to something else. */
  ghost predicate BindingCoded(codes: set<string>) {
    exists code <- codes :: HasPart(code, "export_") || "_not_bound_to_report" == Tail(code, 20)
  }

  function Tail(text: string, n: nat): string { if |text| < n then text else text[|text| - n..] }

  lemma BindingCodedIff(codes: set<string>)
    ensures (exists code :: code in codes && IsBindingCode(code)) <==> BindingCoded(codes)
  {
    forall code | code in codes
      ensures IsBindingCode(code) <==> HasPart(code, "export_") || "_not_bound_to_report" == Tail(code, 20)
    {
      ContainsIff(code, "export_");
    }
  }

  ghost predicate Incomplete(c: Comparison) {
    c.incompleteCount > 0 || exists code <- c.codes :: "canonical_decision_" <= code
  }

  lemma FirstFailure(c: Comparison, m: Matrix, modelled: bool)
    requires modelled <==> FailClosedTotal(m) == 0
    ensures OutcomeOf(c, m, c.codes) ==
      if c.bindingCount > 0 || BindingCoded(c.codes) then FailExportBinding
      else if Incomplete(c) then FailIncompletePayload
      else if Drifts(c) then FailActualDrift
      else if !modelled then FailClosedUnmodeledState
      else if c.mismatches != map[] || c.codes != {} then FailActualDrift
      else PassPositiveEquivalence
  {
    BindingCodedIff(c.codes);
    DriftIff(c);
  }

  lemma UnmodelledIff(rules: Rules, input: Inputs, m: Matrix)
    requires m == Coverage(rules, input)
    ensures FailClosedTotal(m) == 0 <==> Modelled(rules, input)
  {
    FailClosedTotalZeroIff(m);
    ModelledIff(rules, input, m);
  }

  /** The outcome: the first of these failures that applies, and a pass when none does. */
  lemma OutcomeIs(rules: Rules, input: Inputs, c: Comparison, m: Matrix, o: Outcome)
    requires c == Compare(rules, input) && m == Coverage(rules, input) && o == OutcomeOf(c, m, c.codes)
    ensures o ==
      if c.bindingCount > 0 || BindingCoded(c.codes) then FailExportBinding
      else if Incomplete(c) then FailIncompletePayload
      else if Drifts(c) then FailActualDrift
      else if !Modelled(rules, input) then FailClosedUnmodeledState
      else if c.mismatches != map[] || c.codes != {} then FailActualDrift
      else PassPositiveEquivalence
  {
    UnmodelledIff(rules, input, m);
    FirstFailure(c, m, Modelled(rules, input));
  }

  // ----- What a cleared gate says -----

  /** An artifact is of this source and of the requested profile, market, interval and data, and names the
      contract of its strategy plugin. */
  predicate ArtifactBound(a: Artifact, source: string, bound: Inputs) {
    && a.source == source && a.profile == bound.profile && a.market == bound.market && a.interval == bound.interval
    && a.pluginHash != "" && (bound.data == "" || bound.data == a.dataset || bound.data == a.database)
  }

  /** Both are, and they agree on the plugin contract, and on the decision contract where both name one. */
  predicate ArtifactsBound(research: Artifact, runtime: Artifact, bound: Inputs) {
    && ArtifactBound(research, "research", bound) && ArtifactBound(runtime, "runtime_replay", bound)
    && research.pluginHash == runtime.pluginHash
    && (research.contractVersion != "" && runtime.contractVersion != "" ==>
          research.contractVersion == runtime.contractVersion)
  }

  lemma SideCodesIff(side: string, a: Artifact, source: string, bound: Inputs)
    ensures SideCodes(side, a, source, bound) == [] <==> ArtifactBound(a, source, bound)
  {
  }

  lemma ArtifactCodesIff(research: Artifact, runtime: Artifact, bound: Inputs)
    ensures ArtifactCodes(research, runtime, bound) == [] <==> ArtifactsBound(research, runtime, bound)
  {
    SideCodesIff("research", research, "research", bound);
    SideCodesIff("runtime", runtime, "runtime_replay", bound);
  }

  /** The required fields are there in every normalised decision of both lists. */
  ghost predicate AllCovered(rules: Rules, cov: Coverages, input: Inputs) {
    forall d :: d in input.All() ==>
      var e := rules.normalize(d); cov.policy(e) && cov.execution(e) && cov.submitPlan(e)
  }

  lemma CoveredIff(
    rules: Rules, cov: Coverages, input: Inputs, c: Comparison, m: Matrix, l: Lifecycle, base: Report)
    requires base == ReportFrom(rules, cov, input, c, m, l) && c.mismatches == map[] && !c.family.Legacy?
    ensures Covered(base) <==> AllCovered(rules, cov, input)
  {
    var normals := Normals(rules, c.family, input.All());
    NormalsAre(rules, c.family, input.All());
    if Covered(base) {
      forall d | d in input.All()
        ensures var e := rules.normalize(d); cov.policy(e) && cov.execution(e) && cov.submitPlan(e)
      {
        var i :| 0 <= i < |input.All()| && input.All()[i] == d;
        assert normals[i] == rules.normalize(d);
      }
    }
    if AllCovered(rules, cov, input) {
      forall i | 0 <= i < |normals| ensures cov.policy(normals[i]) && cov.execution(normals[i])
          && cov.submitPlan(normals[i]) {
        assert input.All()[i] in input.All();
      }
    }
  }

  lemma CoveredWhenEquivalent(
    rules: Rules, cov: Coverages, input: Inputs, c: Comparison, m: Matrix, l: Lifecycle, base: Report)
    requires c == Compare(rules, input) && m == Coverage(rules, input) && base == ReportFrom(rules, cov, input, c, m, l)
    requires Equivalent(rules, input, m) && FamilyOf(input.All()) == CanonicalV2
    ensures Covered(base) <==> AllCovered(rules, cov, input)
  {
    EquivalentHasNoMismatch(rules, input, c, m);
    CoveredIff(rules, cov, input, c, m, l, base);
  }

  lemma RealExportsIff(research: Artifact, runtime: Artifact, bound: Inputs)
    ensures ArtifactCodes(research, runtime, bound) == [] && ActualExports(Some(ExportOf(research, runtime, bound)))
      <==>
      && ArtifactsBound(research, runtime, bound)
      && "sha256:" <= research.contentHash && "sha256:" <= runtime.contentHash
  {
    ArtifactCodesIff(research, runtime, bound);
  }

  /** Two lists that a gate may let through. */
  ghost predicate Promotable(rules: Rules, cov: Coverages, input: Inputs) {
    SameDecisions(rules, input) && AllSecond(input.All()) && input.research != [] && AllCovered(rules, cov, input)
  }

  lemma PromotableIff(rules: Rules, cov: Coverages, input: Inputs, c: Comparison, m: Matrix, l: Lifecycle, base: Report)
    requires c == Compare(rules, input) && m == Coverage(rules, input) && base == ReportFrom(rules, cov, input, c, m, l)
    ensures FamilyOf(input.All()) == CanonicalV2 && Equivalent(rules, input, m) && input.research != [] && Covered(base)
            <==> Promotable(rules, cov, input)
  {
    FamilyIs(input.All());
    EquivalentIs(rules, input, m);
    if Equivalent(rules, input, m) && FamilyOf(input.All()) == CanonicalV2 {
      CoveredWhenEquivalent(rules, cov, input, c, m, l, base);
    }
  }

  /** The gate lets an export report through exactly when the decisions of the two artifacts are equivalent,
      all of the second contract version, at least one and all covered; the artifacts are bound to the
      request and carry content hashes; and the claimed lifecycle is shown. */
  lemma GateMeans(
    rules: Rules, cov: Coverages, research: Artifact, runtime: Artifact, bound: Inputs, l: Lifecycle, input: Inputs)
    requires input == bound.(research := research.decisions, runtime := runtime.decisions)
    ensures GateReasons(ExportReport(rules, cov, research, runtime, bound, l)) == {} <==>
      && Promotable(rules, cov, input) && ArtifactsBound(research, runtime, bound)
      && "sha256:" <= research.contentHash && "sha256:" <= runtime.contentHash
      && (l.full ==> l.simulatedFill && l.paperFill && l.liveSubmit && l.replay && l.position)
  {
    var c, m := Compare(rules, input), Coverage(rules, input);
    var base := ReportFrom(rules, cov, input, c, m, l);
    GateIff(rules, cov, research, runtime, bound, l, input, c, m, base);
    PromotableIff(rules, cov, input, c, m, l, base);
    RealExportsIff(research, runtime, bound);
  }
}
