/** Comparison of research and runtime decisions: drift by key, state coverage and one outcome. */
module Equivalence {
  import opened Wrappers
  import opened Text
  import opened Picking

  datatype Source = Research | Runtime

  datatype StateClass =
    | Flat | OpenExposure | ReservedExitPending | DustOnly | NonExecutablePosition | RecoveryBlocked
    | RuntimeNotComparable | ResearchLacksAuthority

  /** The class named by a decision: one of the listed ones, some other text, or none. */
  datatype ClassText = Known(class_: StateClass) | Unlisted | Unnamed

  /** A decision: its contract version, the comparable text of its fields, and its position authority. */
  datatype Decision = Decision(version: int, fields: map<string, string>, authority: string)

  datatype Validation = Validation(codes: seq<string>, missing: seq<string>, incomplete: bool)

  /** The field lists of the three contracts, and the functions of other modules that are called. */
  datatype Rules = Rules(
    v2Fields: seq<string>, v1Fields: seq<string>, legacyFields: seq<string>,
    reasonFor: string -> string,
    normalize: Decision -> Decision,
    keyOf: Decision -> string,
    validate: Decision -> Validation,
    classify: (Decision, Source) -> (ClassText, string),
    supports: Decision -> bool,
    diagnose: (Decision, seq<Decision>) -> Option<seq<string>>)

  /** Two decision lists and what they must be bound to. */
  datatype Inputs = Inputs(
    research: seq<Decision>, runtime: seq<Decision>,
    profile: string, market: string, interval: string, data: string)
  {
    function All(): seq<Decision> { research + runtime }
  }

  datatype Family = CanonicalV2 | CanonicalV1 | Mixed | Legacy

  datatype Outcome =
    | PassPositiveEquivalence | FailClosedUnmodeledState | FailActualDrift | FailIncompletePayload | FailExportBinding

  // ----- Contract family and normalisation -----

  predicate AllCanonical(ds: seq<Decision>) { forall i :: 0 <= i < |ds| ==> ds[i].version >= 1 }

  predicate AllV2(ds: seq<Decision>) { forall i :: 0 <= i < |ds| ==> ds[i].version >= 2 }

  predicate AllV1(ds: seq<Decision>) { forall i :: 0 <= i < |ds| ==> ds[i].version == 1 }

  function FamilyOf(ds: seq<Decision>): Family {
    if !AllCanonical(ds) then Legacy else if AllV2(ds) then CanonicalV2 else if AllV1(ds) then CanonicalV1 else Mixed
  }

  function FieldsOf(rules: Rules, f: Family): seq<string> {
    match f
    case CanonicalV2 => rules.v2Fields
    case CanonicalV1 => rules.v1Fields
    case _ => rules.legacyFields
  }

  function Normal(rules: Rules, f: Family, d: Decision): Decision { if f.Legacy? then d else rules.normalize(d) }

  function Normals(rules: Rules, f: Family, ds: seq<Decision>): (r: seq<Decision>)
    ensures |r| == |ds| && forall i :: 0 <= i < |r| ==> r[i] == Normal(rules, f, ds[i])
  {
    seq(|ds|, i requires 0 <= i < |ds| => Normal(rules, f, ds[i]))
  }

  function TextOf(d: Decision, field: string): string { if field in d.fields then d.fields[field] else "" }

  /** Decisions by key; the last one of a key wins. */
  function ByKey(rules: Rules, ds: seq<Decision>): map<string, Decision> {
    if ds == [] then map[] else
      var last := ds[|ds| - 1];
      ByKey(rules, ds[..|ds| - 1])[rules.keyOf(last) := last]
  }

  // ----- Validation and binding -----

  function Codes(lists: seq<seq<string>>): (r: set<string>)
    ensures forall c :: c in r <==> exists i :: 0 <= i < |lists| && c in lists[i]
  {
    if lists == [] then {} else
      var last := lists[|lists| - 1];
      var r := Codes(lists[..|lists| - 1]) + set i | 0 <= i < |last| :: last[i];
      assert forall c :: c in r ==> exists i :: 0 <= i < |lists| && c in lists[i] by {
        forall c | c in r ensures exists i :: 0 <= i < |lists| && c in lists[i] {
          if c in lists[|lists| - 1] {
          } else {
            var i :| 0 <= i < |lists| - 1 && c in lists[..|lists| - 1][i];
            assert c in lists[i];
          }
        }
      }
      assert forall i :: 0 <= i < |lists| - 1 ==> lists[..|lists| - 1][i] == lists[i];
      r
  }

  const LEGACY_SCHEMA := "canonical_decision_legacy_schema"

  function ValidationCodes(rules: Rules, f: Family, d: Decision): seq<string> {
    if f.Legacy? then [LEGACY_SCHEMA] else rules.validate(d).codes
  }

  /** What keeps a normalised decision from being bound to the requested profile, market, interval and data. */
  function BindingCodes(input: Inputs, f: Family, d: Decision): seq<string> {
    if f.Legacy? then [] else
      When(TextOf(d, "profile_content_hash") != input.profile, "decision_profile_hash_not_bound_to_report")
      + When(TextOf(d, "market") != input.market, "decision_market_not_bound_to_report")
      + When(TextOf(d, "interval") != input.interval, "decision_interval_not_bound_to_report")
      + When(input.data != "" && input.data != TextOf(d, "dataset_content_hash")
          && input.data != TextOf(d, "db_data_fingerprint"),
             "decision_data_fingerprint_not_bound_to_report")
  }

  function ValidationLists(rules: Rules, f: Family, ds: seq<Decision>): (r: seq<seq<string>>)
    ensures |r| == |ds| && forall i :: 0 <= i < |r| ==> r[i] == ValidationCodes(rules, f, ds[i])
  {
    seq(|ds|, i requires 0 <= i < |ds| => ValidationCodes(rules, f, ds[i]))
  }

  /** Binding items of the normalised decisions. */
  function BindingLists(rules: Rules, input: Inputs, f: Family, ds: seq<Decision>): (r: seq<seq<string>>)
    ensures |r| == |ds| && forall i :: 0 <= i < |r| ==> r[i] == BindingCodes(input, f, Normal(rules, f, ds[i]))
  {
    seq(|ds|, i requires 0 <= i < |ds| => BindingCodes(input, f, Normal(rules, f, ds[i])))
  }

  function IncompleteCount(rules: Rules, f: Family, ds: seq<Decision>): nat {
    if ds == [] || f.Legacy? then 0 else
      var v := rules.validate(ds[|ds| - 1]);
      IncompleteCount(rules, f, ds[..|ds| - 1]) + if v.codes != [] && v.incomplete then 1 else 0
  }

  // ----- Mismatches -----

  function FieldCode(rules: Rules, left: Decision, right: Decision, field: string): Option<string> {
    if TextOf(left, field) != TextOf(right, field) then Some(rules.reasonFor(field)) else None
  }

  function FieldCodes(rules: Rules, fields: seq<string>, left: Decision, right: Decision): seq<string> {
    Picked(field => FieldCode(rules, left, right, field), fields)
  }

  /** Position authority is compared when both sides support it and one is not flat. */
  predicate AuthorityCompared(rules: Rules, f: Family, left: Decision, right: Decision) {
    && !f.Legacy? && rules.supports(left) && rules.supports(right)
    && (rules.classify(left, Research).0 != Known(Flat) || rules.classify(right, Runtime).0 != Known(Flat))
  }

  function MismatchCodes(rules: Rules, f: Family, left: Decision, right: Decision): seq<string> {
    FieldCodes(rules, FieldsOf(rules, f), left, right)
    + When(AuthorityCompared(rules, f, left, right)
        && left.authority != right.authority, "decision_position_authority_mismatch")
  }

  datatype Mismatch = Mismatch(codes: seq<string>, classes: set<ClassText>)

  function MismatchOf(rules: Rules, f: Family, left: Decision, right: Decision): Mismatch {
    Mismatch(MismatchCodes(rules, f, left, right),
             {rules.classify(left, Research).0, rules.classify(right, Runtime).0} - {Unnamed})
  }

  datatype Comparison = Comparison(
    family: Family, left: map<string, Decision>, right: map<string, Decision>,
    missingResearch: set<string>, missingRuntime: set<string>, mismatches: map<string, Mismatch>,
    diagnostics: seq<seq<string>>, codes: set<string>, bindingCount: nat, incompleteCount: nat)

  function Mismatches(rules: Rules, f: Family, left: map<string, Decision>, right: map<string, Decision>)
    : map<string, Mismatch>
  {
    map k | k in left && k in right && MismatchCodes(rules, f, left[k], right[k]) != []
        :: MismatchOf(rules, f, left[k], right[k])
  }

  /** The decisions whose key is among the given ones. */
  function WithKeys(rules: Rules, ds: seq<Decision>, keys: set<string>): seq<Decision> {
    if ds == [] then [] else
      var d := ds[|ds| - 1];
      WithKeys(rules, ds[..|ds| - 1], keys) + When(rules.keyOf(d) in keys, d)
  }

  /** Research decisions without a runtime partner may be explained by a near miss among the runtime
      decisions `candidates` that lack a research partner; this adds codes only. */
  function Diagnostics(rules: Rules, research: seq<Decision>, candidates: seq<Decision>,
      missingRuntime: set<string>): seq<seq<string>> {
    if research == [] then [] else
      var d := research[|research| - 1];
      var before := Diagnostics(rules, research[..|research| - 1], candidates, missingRuntime);
      if rules.keyOf(d) !in missingRuntime then before else
        match rules.diagnose(d, candidates) case None => before case Some(codes) => before + [codes]
  }

  function CountNonEmpty(lists: seq<seq<string>>): nat {
    if lists == [] then 0 else CountNonEmpty(lists[..|lists| - 1]) + if lists[|lists| - 1] != [] then 1 else 0
  }

  const VERSION_MISMATCH := "canonical_decision_contract_version_mismatch"
  const MISSING_RESEARCH := "missing_research_decision"
  const MISSING_RUNTIME := "missing_runtime_decision"

  function OneIf(condition: bool, code: string): set<string> { if condition then {code} else {} }

  function MismatchCodeSet(mismatches: map<string, Mismatch>): set<string> {
    set k, c | k in mismatches && c in mismatches[k].codes :: c
  }

  /** Reason codes that do not come from validation or binding. */
  function DriftCodes(f: Family, left: map<string, Decision>, right: map<string, Decision>,
                      mismatches: map<string, Mismatch>, diagnostics: seq<seq<string>>): set<string> {
    OneIf(f.Mixed?, VERSION_MISMATCH)
    + OneIf(right.Keys - left.Keys != {}, MISSING_RESEARCH)
    + OneIf(left.Keys - right.Keys != {}, MISSING_RUNTIME)
    + MismatchCodeSet(mismatches) + Codes(diagnostics)
  }

  function Compare(rules: Rules, input: Inputs): Comparison {
    var f := FamilyOf(input.All());
    var research, runtime := Normals(rules, f, input.research), Normals(rules, f, input.runtime);
    var left, right := ByKey(rules, research), ByKey(rules, runtime);
    var mismatches := Mismatches(rules, f, left, right);
    var candidates := WithKeys(rules, runtime, right.Keys - left.Keys);
    var diagnostics := Diagnostics(rules, research, candidates, left.Keys - right.Keys);
    var validation := ValidationLists(rules, f, input.All());
    var binding := BindingLists(rules, input, f, input.All());
    Comparison(f, left, right, right.Keys - left.Keys, left.Keys - right.Keys, mismatches, diagnostics,
               DriftCodes(f, left, right, mismatches, diagnostics) + Codes(validation) + Codes(binding),
               CountNonEmpty(binding), IncompleteCount(rules, f, input.All()))
  }

  // ----- Drift counts -----

  predicate LifecycleOnly(m: Mismatch) {
    && m.codes != [] && (forall i :: 0 <= i < |m.codes| ==> m.codes[i] == "decision_position_dust_mismatch")
    && exists c :: c in m.classes && c != Known(Flat)
  }

  function LifecycleKeys(mismatches: map<string, Mismatch>): set<string> {
    set k | k in mismatches && LifecycleOnly(mismatches[k])
  }

  function ActualDrift(c: Comparison): nat {
    |c.missingResearch| + |c.missingRuntime| + |c.mismatches.Keys - LifecycleKeys(c.mismatches)|
  }

  /** The counting loop over the mismatch items. */
  method SplitMismatches(mismatches: map<string, Mismatch>) returns (modeled: nat, unmodeled: nat)
    ensures modeled == |mismatches.Keys - LifecycleKeys(mismatches)|
    ensures unmodeled == |LifecycleKeys(mismatches)|
  {
    modeled, unmodeled := 0, 0;
    var left := mismatches.Keys;
    ghost var life := LifecycleKeys(mismatches);
    ghost var other := mismatches.Keys - life;
    assert other - left == {} && life - left == {};
    while left != {}
      invariant left <= mismatches.Keys
      invariant modeled == |other - left|
      invariant unmodeled == |life - left|
      decreases |left|
    {
      var k :| k in left;
      TakeOne(other, left, k);
      TakeOne(life, left, k);
      left := left - {k};
      if LifecycleOnly(mismatches[k]) {
        unmodeled := unmodeled + 1;
      } else {
        modeled := modeled + 1;
      }
    }
    assert other - {} == other && life - {} == life;
  }

  method DriftCounts(c: Comparison) returns (actual: nat, lifecycle: nat)
    ensures actual == ActualDrift(c)
    ensures lifecycle == |LifecycleKeys(c.mismatches)|
  {
    var modeled, unmodeled := SplitMismatches(c.mismatches);
    actual := |c.missingResearch| + |c.missingRuntime| + modeled;
    lifecycle := unmodeled;
  }

  lemma TakeOne(s: set<string>, left: set<string>, k: string)
    requires k in left
    ensures |s - (left - {k})| == |s - left| + if k in s then 1 else 0
  {
    assert s - (left - {k}) == if k in s then (s - left) + {k} else s - left;
  }

  /** Nothing is counted twice or lost: actual drift plus lifecycle mismatches is missing decisions plus
      mismatching pairs. */
  lemma DriftConserved(c: Comparison)
    ensures ActualDrift(c) + |LifecycleKeys(c.mismatches)| ==
            |c.missingResearch| + |c.missingRuntime| + |c.mismatches|
  {
    var keys, life := c.mismatches.Keys, LifecycleKeys(c.mismatches);
    assert life <= keys;
    assert keys == (keys - life) + life;
  }

  // ----- State coverage -----

  datatype Entry = Entry(research: nat, runtime: nat, supported: nat, unsupported: nat)

  /** One entry for each state class. */
  datatype Matrix = Matrix(
    flat: Entry, openExposure: Entry, reservedExitPending: Entry, dustOnly: Entry, nonExecutable: Entry,
    recoveryBlocked: Entry, runtimeNotComparable: Entry, researchLacksAuthority: Entry)
  {
    function At(c: StateClass): Entry {
      match c
      case Flat => flat
      case OpenExposure => openExposure
      case ReservedExitPending => reservedExitPending
      case DustOnly => dustOnly
      case NonExecutablePosition => nonExecutable
      case RecoveryBlocked => recoveryBlocked
      case RuntimeNotComparable => runtimeNotComparable
      case ResearchLacksAuthority => researchLacksAuthority
    }

    function Put(c: StateClass, e: Entry): (m: Matrix)
      ensures m.At(c) == e
      ensures forall d :: d != c ==> m.At(d) == At(d)
    {
      match c
      case Flat => this.(flat := e)
      case OpenExposure => this.(openExposure := e)
      case ReservedExitPending => this.(reservedExitPending := e)
      case DustOnly => this.(dustOnly := e)
      case NonExecutablePosition => this.(nonExecutable := e)
      case RecoveryBlocked => this.(recoveryBlocked := e)
      case RuntimeNotComparable => this.(runtimeNotComparable := e)
      case ResearchLacksAuthority => this.(researchLacksAuthority := e)
    }
  }

  function ClassOf(rules: Rules, d: Decision, s: Source): StateClass {
    match rules.classify(d, s).0
    case Known(c) => c
    case _ => if s.Runtime? then RuntimeNotComparable else ResearchLacksAuthority
  }

  function AddDecision(rules: Rules, m: Matrix, d: Decision, s: Source): Matrix {
    var c := ClassOf(rules, d, s);
    m.Put(c, Counted(rules, m.At(c), d, s))
  }

  function Counted(rules: Rules, e: Entry, d: Decision, s: Source): Entry {
    var counted := if s.Research? then e.(research := e.research + 1) else e.(runtime := e.runtime + 1);
    if rules.classify(d, s).1 != "" then counted.(unsupported := e.unsupported + 1)
    else if rules.supports(d) then counted.(supported := e.supported + 1)
    else counted
  }

  function AddAll(rules: Rules, m: Matrix, ds: seq<Decision>, s: Source): Matrix {
    if ds == [] then m else AddDecision(rules, AddAll(rules, m, ds[..|ds| - 1], s), ds[|ds| - 1], s)
  }

  const NO_DECISIONS := Entry(0, 0, 0, 0)

  const EMPTY_MATRIX := Matrix(
    NO_DECISIONS, NO_DECISIONS, NO_DECISIONS, NO_DECISIONS, NO_DECISIONS, NO_DECISIONS, NO_DECISIONS, NO_DECISIONS)

  function Coverage(rules: Rules, input: Inputs): Matrix {
    AddAll(rules, AddAll(rules, EMPTY_MATRIX, input.research, Research), input.runtime, Runtime)
  }

  method AddDecisions(rules: Rules, m: Matrix, ds: seq<Decision>, s: Source) returns (r: Matrix)
    ensures r == AddAll(rules, m, ds, s)
  {
    r := m;
    for i := 0 to |ds|
      invariant r == AddAll(rules, m, ds[..i], s)
    {
      assert ds[..i + 1][..i] == ds[..i];
      r := AddDecision(rules, r, ds[i], s);
    }
    assert ds[..|ds|] == ds;
  }

  method StateCoverageMatrix(rules: Rules, input: Inputs) returns (m: Matrix)
    ensures m == Coverage(rules, input)
  {
    m := AddDecisions(rules, EMPTY_MATRIX, input.research, Research);
    m := AddDecisions(rules, m, input.runtime, Runtime);
  }

  /** Flat is always modelled; another class when it has supported decisions and no unsupported one. */
  predicate PositiveSupported(m: Matrix, c: StateClass) {
    c.Flat? || (m.At(c).supported > 0 && m.At(c).unsupported == 0)
  }

  predicate FailClosed(m: Matrix, c: StateClass) { !PositiveSupported(m, c) }

  predicate Seen(m: Matrix, c: StateClass) { m.At(c).research > 0 || m.At(c).runtime > 0 }

  function CountOf(e: Entry, s: Source): nat { if s.Research? then e.research else e.runtime }

  /** Decisions of one source over all classes. */
  function SourceTotal(m: Matrix, s: Source): nat {
    CountOf(m.flat, s) + CountOf(m.openExposure, s) + CountOf(m.reservedExitPending, s) + CountOf(m.dustOnly, s)
    + CountOf(m.nonExecutable, s) + CountOf(m.recoveryBlocked, s) + CountOf(m.runtimeNotComparable, s)
    + CountOf(m.researchLacksAuthority, s)
  }

  function FailClosedOf(m: Matrix, c: StateClass): nat {
    if FailClosed(m, c) then m.At(c).research + m.At(c).runtime else 0
  }

  function FailClosedTotal(m: Matrix): nat {
    FailClosedOf(m, Flat) + FailClosedOf(m, OpenExposure) + FailClosedOf(m, ReservedExitPending)
        + FailClosedOf(m, DustOnly)
    + FailClosedOf(m, NonExecutablePosition) + FailClosedOf(m, RecoveryBlocked) + FailClosedOf(m, RuntimeNotComparable)
    + FailClosedOf(m, ResearchLacksAuthority)
  }

  lemma AddDecisionTotals(rules: Rules, m: Matrix, d: Decision, s: Source, t: Source)
    ensures SourceTotal(AddDecision(rules, m, d, s), t) == SourceTotal(m, t) + if s == t then 1 else 0
  {
    var c := ClassOf(rules, d, s);
    var e := Counted(rules, m.At(c), d, s);
    assert CountOf(e, t) == CountOf(m.At(c), t) + if s == t then 1 else 0;
  }

  lemma {:induction false} AddAllTotals(rules: Rules, m: Matrix, ds: seq<Decision>, s: Source, t: Source)
    ensures SourceTotal(AddAll(rules, m, ds, s), t) == SourceTotal(m, t) + if s == t then |ds| else 0
  {
    if ds != [] {
      AddAllTotals(rules, m, ds[..|ds| - 1], s, t);
      AddDecisionTotals(rules, AddAll(rules, m, ds[..|ds| - 1], s), ds[|ds| - 1], s, t);
    }
  }

  lemma TotalsFromNothing(rules: Rules, m: Matrix, input: Inputs, t: Source)
    requires SourceTotal(m, t) == 0
    ensures SourceTotal(AddAll(rules, AddAll(rules, m, input.research, Research), input.runtime, Runtime), t)
            == |if t.Research? then input.research else input.runtime|
  {
    AddAllTotals(rules, m, input.research, Research, t);
    AddAllTotals(rules, AddAll(rules, m, input.research, Research), input.runtime, Runtime, t);
  }

  lemma EmptyTotal(t: Source)
    ensures SourceTotal(EMPTY_MATRIX, t) == 0
  {
    assert CountOf(NO_DECISIONS, t) == 0;
  }

  /** Every decision of either list is counted in exactly one class. */
  lemma CoverageConserved(rules: Rules, input: Inputs, t: Source)
    ensures SourceTotal(Coverage(rules, input), t) == |if t.Research? then input.research else input.runtime|
  {
    EmptyTotal(t);
    TotalsFromNothing(rules, EMPTY_MATRIX, input, t);
  }

  // ----- Outcome -----

  predicate Contains(s: string, part: string) { part <= s || (s != [] && Contains(s[1..], part)) }

  predicate IsBindingCode(code: string) { Contains(code, "export_") || EndsWith(code, "_not_bound_to_report") }

  function OutcomeOf(c: Comparison, m: Matrix, codes: set<string>): Outcome {
    if c.bindingCount > 0 || exists code :: code in codes && IsBindingCode(code)
    then FailExportBinding
    else if c.incompleteCount > 0 || exists code :: code in codes && StartsWith(code, "canonical_decision_")
    then FailIncompletePayload
    else if ActualDrift(c) > 0 then FailActualDrift
    else if FailClosedTotal(m) > 0 then FailClosedUnmodeledState
    else if c.mismatches != map[] || c.missingResearch != {} || c.missingRuntime != {} || codes != {}
        then FailActualDrift
    else PassPositiveEquivalence
  }

  ghost predicate AllValid(rules: Rules, ds: seq<Decision>) {
    forall d :: d in ds ==> rules.validate(d).codes == []
  }

  /** Profile hash, market and interval are the requested ones; and so is the data, when it is requested, as the
      dataset hash or as the database fingerprint. */
  predicate BoundTo(input: Inputs, d: Decision) {
    && TextOf(d, "profile_content_hash") == input.profile
    && TextOf(d, "market") == input.market
    && TextOf(d, "interval") == input.interval
    && (input.data == "" || input.data == TextOf(d, "dataset_content_hash") || input.data
        == TextOf(d, "db_data_fingerprint"))
  }

  ghost predicate AllBound(rules: Rules, input: Inputs) {
    forall d :: d in input.All() ==> BoundTo(input, rules.normalize(d))
  }

  lemma BoundIff(input: Inputs, f: Family, d: Decision)
    requires !f.Legacy?
    ensures BindingCodes(input, f, d) == [] <==> BoundTo(input, d)
  {
  }

  /** The comparable texts of all these fields agree. */
  ghost predicate SameTexts(fields: seq<string>, left: Decision, right: Decision) {
    forall i :: 0 <= i < |fields| ==> TextOf(left, fields[i]) == TextOf(right, fields[i])
  }

  /** Two decisions agree on every comparison field, and on position authority where it is compared. */
  ghost predicate Agree(rules: Rules, f: Family, left: Decision, right: Decision) {
    && SameTexts(FieldsOf(rules, f), left, right)
    && (AuthorityCompared(rules, f, left, right) ==> left.authority == right.authority)
  }

  /** The keys of a list of decisions. */
  function KeysOf(rules: Rules, ds: seq<Decision>): set<string> {
    set d | d in ds :: rules.keyOf(d)
  }

  /** No later decision of the list has the same key. */
  ghost predicate IsLast(rules: Rules, ds: seq<Decision>, i: nat) {
    i < |ds| && forall j :: i < j < |ds| ==> rules.keyOf(ds[j]) != rules.keyOf(ds[i])
  }

  /** The last decisions of every common key agree. */
  ghost predicate LastAgree(rules: Rules, f: Family, research: seq<Decision>, runtime: seq<Decision>) {
    forall i: nat, j: nat ::
      IsLast(rules, research, i) && IsLast(rules, runtime, j) && rules.keyOf(research[i]) == rules.keyOf(runtime[j])
      ==> Agree(rules, f, research[i], runtime[j])
  }

  /** What a positive outcome claims of the two lists. */
  ghost predicate Equivalent(rules: Rules, input: Inputs, m: Matrix) {
    var f := FamilyOf(input.All());
    var research, runtime := Normals(rules, f, input.research), Normals(rules, f, input.runtime);
    && (f.CanonicalV2? || f.CanonicalV1?)
    && AllValid(rules, input.All()) && AllBound(rules, input)
    && KeysOf(rules, research) == KeysOf(rules, runtime)
    && LastAgree(rules, f, research, runtime)
    && (forall s :: Seen(m, s) ==> PositiveSupported(m, s))
  }

  // ----- What the maps by key hold -----

  lemma {:induction false} ByKeyKeys(rules: Rules, ds: seq<Decision>)
    ensures ByKey(rules, ds).Keys == KeysOf(rules, ds)
  {
    if ds != [] {
      var init, last := ds[..|ds| - 1], ds[|ds| - 1];
      ByKeyKeys(rules, init);
      assert ds == init + [last];
    }
  }

  /** Under a key is the decision at the last place that has it. */
  lemma {:induction false} ByKeyLast(rules: Rules, ds: seq<Decision>, k: string) returns (i: nat)
    requires k in ByKey(rules, ds)
    ensures IsLast(rules, ds, i) && rules.keyOf(ds[i]) == k && ByKey(rules, ds)[k] == ds[i]
  {
    var init, last := ds[..|ds| - 1], ds[|ds| - 1];
    if rules.keyOf(last) == k {
      i := |ds| - 1;
    } else {
      i := ByKeyLast(rules, init, k);
    }
  }

  /** That place is the only one. */
  lemma LastUnique(rules: Rules, ds: seq<Decision>, i: nat, j: nat)
    requires IsLast(rules, ds, i) && IsLast(rules, ds, j) && rules.keyOf(ds[i]) == rules.keyOf(ds[j])
    ensures i == j
  {
  }

  lemma ByKeyAt(rules: Rules, ds: seq<Decision>, i: nat)
    requires IsLast(rules, ds, i)
    ensures rules.keyOf(ds[i]) in ByKey(rules, ds) && ByKey(rules, ds)[rules.keyOf(ds[i])] == ds[i]
  {
    ByKeyKeys(rules, ds);
    assert rules.keyOf(ds[i]) in KeysOf(rules, ds);
    var j := ByKeyLast(rules, ds, rules.keyOf(ds[i]));
    LastUnique(rules, ds, i, j);
  }

  /** The decisions under every common key agree. */
  ghost predicate AgreeByKey(rules: Rules, f: Family, left: map<string, Decision>, right: map<string, Decision>) {
    forall k :: k in left && k in right ==> Agree(rules, f, left[k], right[k])
  }

  lemma AgreeByKeyIff(
    rules: Rules, f: Family, research: seq<Decision>, runtime: seq<Decision>,
    left: map<string, Decision>, right: map<string, Decision>)
    requires left == ByKey(rules, research) && right == ByKey(rules, runtime)
    ensures AgreeByKey(rules, f, left, right) <==> LastAgree(rules, f, research, runtime)
  {
    if AgreeByKey(rules, f, left, right) {
      forall i: nat, j: nat
        | IsLast(rules, research, i) && IsLast(rules, runtime, j) && rules.keyOf(research[i]) == rules.keyOf(runtime[j])
        ensures Agree(rules, f, research[i], runtime[j])
      {
        ByKeyAt(rules, research, i);
        ByKeyAt(rules, runtime, j);
      }
    }
    if LastAgree(rules, f, research, runtime) {
      forall k | k in left && k in right ensures Agree(rules, f, left[k], right[k]) {
        var i := ByKeyLast(rules, research, k);
        var j := ByKeyLast(rules, runtime, k);
      }
    }
  }

  // ----- Soundness and completeness of PASS -----

  lemma FieldCodesEmptyIff(rules: Rules, fields: seq<string>, left: Decision, right: Decision)
    ensures FieldCodes(rules, fields, left, right) == [] <==> SameTexts(fields, left, right)
  {
    PickedNothingIff(field => FieldCode(rules, left, right, field), fields);
  }

  lemma CodesEmptyIff(lists: seq<seq<string>>)
    ensures Codes(lists) == {} <==> forall i :: 0 <= i < |lists| ==> lists[i] == []
  {
    if i :| 0 <= i < |lists| && lists[i] != [] {
      assert lists[i][0] in Codes(lists);
    }
  }

  lemma {:induction false} CountNonEmptyZeroIff(lists: seq<seq<string>>)
    ensures CountNonEmpty(lists) == 0 <==> forall i :: 0 <= i < |lists| ==> lists[i] == []
  {
    if lists != [] {
      CountNonEmptyZeroIff(lists[..|lists| - 1]);
    }
  }

  lemma {:induction false} NoDiagnostics(rules: Rules, research: seq<Decision>, candidates: seq<Decision>)
    ensures Diagnostics(rules, research, candidates, {}) == []
  {
    if research != [] {
      NoDiagnostics(rules, research[..|research| - 1], candidates);
    }
  }

  lemma {:induction false} NoIncomplete(rules: Rules, f: Family, ds: seq<Decision>)
    requires forall d :: d in ds ==> rules.validate(d).codes == []
    ensures IncompleteCount(rules, f, ds) == 0
  {
    if ds != [] {
      assert ds[|ds| - 1] in ds;
      NoIncomplete(rules, f, ds[..|ds| - 1]);
    }
  }

  lemma FailClosedTotalZeroIff(m: Matrix)
    ensures FailClosedTotal(m) == 0 <==> forall s :: Seen(m, s) ==> PositiveSupported(m, s)
  {
    assert forall s :: Seen(m, s) && FailClosed(m, s) ==> FailClosedOf(m, s) > 0;
    if FailClosedTotal(m) > 0 {
      var s :| FailClosedOf(m, s) > 0;
      assert Seen(m, s) && !PositiveSupported(m, s);
    }
  }

  lemma MismatchesEmptyIff(rules: Rules, f: Family, left: map<string, Decision>, right: map<string, Decision>)
    ensures Mismatches(rules, f, left, right) == map[] <==> AgreeByKey(rules, f, left, right)
  {
    var m := Mismatches(rules, f, left, right);
    forall k | k in left && k in right ensures k !in m <==> Agree(rules, f, left[k], right[k]) {
      FieldCodesEmptyIff(rules, FieldsOf(rules, f), left[k], right[k]);
    }
    assert m == map[] <==> forall k :: k in left && k in right ==> k !in m;
  }

  lemma ListsEmptyIff(ds: seq<Decision>, lists: seq<seq<string>>, g: Decision -> seq<string>)
    requires |lists| == |ds| && forall i :: 0 <= i < |ds| ==> lists[i] == g(ds[i])
    ensures Codes(lists) == {} <==> forall d :: d in ds ==> g(d) == []
    ensures CountNonEmpty(lists) == 0 <==> forall d :: d in ds ==> g(d) == []
  {
    CodesEmptyIff(lists);
    CountNonEmptyZeroIff(lists);
    assert forall i :: 0 <= i < |ds| ==> ds[i] in ds;
  }

  lemma ValidationEmptyIff(rules: Rules, ds: seq<Decision>)
    ensures Codes(ValidationLists(rules, FamilyOf(ds), ds)) == {} <==> !FamilyOf(ds).Legacy? && AllValid(rules, ds)
  {
    var f := FamilyOf(ds);
    var lists := ValidationLists(rules, f, ds);
    CodesEmptyIff(lists);
    assert forall i :: 0 <= i < |ds| ==> ds[i] in ds;
    if f.Legacy? {
      var i :| 0 <= i < |ds| && ds[i].version < 1;
      assert lists[i] == [LEGACY_SCHEMA];
    }
  }

  lemma BindingEmptyIff(rules: Rules, input: Inputs, f: Family)
    requires !f.Legacy?
    ensures
      var lists := BindingLists(rules, input, f, input.All());
      && (Codes(lists) == {} <==> AllBound(rules, input))
      && (CountNonEmpty(lists) == 0 <==> AllBound(rules, input))
  {
    var lists := BindingLists(rules, input, f, input.All());
    ListsEmptyIff(input.All(), lists, d => BindingCodes(input, f, rules.normalize(d)));
    AllBoundIff(rules, input, f);
  }

  lemma AllBoundIff(rules: Rules, input: Inputs, f: Family)
    requires !f.Legacy?
    ensures AllBound(rules, input)
      <==> forall d :: d in input.All() ==> BindingCodes(input, f, rules.normalize(d)) == []
  {
    forall d | d in input.All()
      ensures BindingCodes(input, f, rules.normalize(d)) == [] <==> BoundTo(input, rules.normalize(d))
    {
      BoundIff(input, f, rules.normalize(d));
    }
  }

  lemma DriftCodesEmptyIff(
    f: Family, left: map<string, Decision>, right: map<string, Decision>,
    mismatches: map<string, Mismatch>, diagnostics: seq<seq<string>>)
    requires forall k :: k in mismatches ==> mismatches[k].codes != []
    requires left.Keys <= right.Keys ==> diagnostics == []
    ensures DriftCodes(f, left, right, mismatches, diagnostics) == {} <==>
            !f.Mixed? && left.Keys == right.Keys && mismatches == map[]
  {
    var codes := DriftCodes(f, left, right, mismatches, diagnostics);
    MismatchCodeSetEmptyIff(mismatches);
    if codes == {} {
      assert VERSION_MISMATCH !in codes && MISSING_RESEARCH !in codes && MISSING_RUNTIME !in codes;
    } else if left.Keys == right.Keys {
      assert left.Keys - right.Keys == {} && right.Keys - left.Keys == {};
      assert Codes([]) == {};
    }
  }

  lemma MismatchCodeSetEmptyIff(mismatches: map<string, Mismatch>)
    requires forall k :: k in mismatches ==> mismatches[k].codes != []
    ensures MismatchCodeSet(mismatches) == {} <==> mismatches == map[]
  {
    if k :| k in mismatches {
      assert mismatches[k].codes[0] in mismatches[k].codes;
      assert mismatches[k].codes[0] in MismatchCodeSet(mismatches);
    }
  }

  /** Without binding items, incomplete payloads or codes, the outcome depends on coverage and mismatches only. */
  lemma OutcomePassIff(c: Comparison, m: Matrix, codes: set<string>)
    ensures OutcomeOf(c, m, codes) == PassPositiveEquivalence <==>
      && c.bindingCount == 0 && c.incompleteCount == 0 && codes == {}
      && c.mismatches == map[] && c.missingResearch == {} && c.missingRuntime == {}
      && FailClosedTotal(m) == 0
  {
    if codes == {} && c.mismatches == map[] && c.missingResearch == {} && c.missingRuntime == {} {
      assert c.mismatches.Keys - LifecycleKeys(c.mismatches) == {};
    }
  }

  /** The comparison has no items and no codes exactly when decisions are valid, bound and aligned. */
  lemma CleanIff(rules: Rules, input: Inputs, c: Comparison)
    requires c == Compare(rules, input)
    ensures c.bindingCount == 0 && c.incompleteCount == 0 && c.codes == {} <==>
            && (c.family.CanonicalV2? || c.family.CanonicalV1?)
            && AllValid(rules, input.All()) && AllBound(rules, input)
            && c.left.Keys == c.right.Keys && c.mismatches == map[]
  {
    var f := c.family;
    var research, runtime := Normals(rules, f, input.research), Normals(rules, f, input.runtime);
    if c.left.Keys <= c.right.Keys {
      assert c.left.Keys - c.right.Keys == {};
      NoDiagnostics(rules, research, WithKeys(rules, runtime, c.right.Keys - c.left.Keys));
    }
    DriftCodesEmptyIff(f, c.left, c.right, c.mismatches, c.diagnostics);
    ValidationEmptyIff(rules, input.All());
    if !f.Legacy? {
      BindingEmptyIff(rules, input, f);
      if AllValid(rules, input.All()) {
        NoIncomplete(rules, f, input.All());
      }
    }
  }

  /** The outcome is positive exactly when all decisions are canonical under one contract family, every
      one validates and is bound, both sides have the same keys, the last decisions of every key agree
      on every comparison field and on position authority where that is compared, and every state class
      that was seen is modelled. */
  lemma PassIffEquivalent(rules: Rules, input: Inputs, c: Comparison, m: Matrix)
    requires c == Compare(rules, input) && m == Coverage(rules, input)
    ensures OutcomeOf(c, m, c.codes) == PassPositiveEquivalence <==> Equivalent(rules, input, m)
  {
    CompareShape(rules, input, c);
    CleanIff(rules, input, c);
    PassIffClean(c, m);
    MismatchesEmptyIff(rules, c.family, c.left, c.right);
    FailClosedTotalZeroIff(m);
    KeyedIsListed(rules, input, c);
  }

  lemma CompareShape(rules: Rules, input: Inputs, c: Comparison)
    requires c == Compare(rules, input)
    ensures c.family == FamilyOf(input.All())
    ensures c.left == ByKey(rules, Normals(rules, c.family, input.research))
    ensures c.right == ByKey(rules, Normals(rules, c.family, input.runtime))
    ensures c.missingResearch == c.right.Keys - c.left.Keys && c.missingRuntime == c.left.Keys - c.right.Keys
    ensures c.mismatches == Mismatches(rules, c.family, c.left, c.right)
  {
  }

  /** Keys and agreement of the maps are those of the normalised lists. */
  lemma KeyedIsListed(rules: Rules, input: Inputs, c: Comparison)
    requires c.left == ByKey(rules, Normals(rules, c.family, input.research))
    requires c.right == ByKey(rules, Normals(rules, c.family, input.runtime))
    ensures
      var research, runtime := Normals(rules, c.family, input.research), Normals(rules, c.family, input.runtime);
      && c.left.Keys == KeysOf(rules, research) && c.right.Keys == KeysOf(rules, runtime)
      && (AgreeByKey(rules, c.family, c.left, c.right) <==> LastAgree(rules, c.family, research, runtime))
  {
    var research, runtime := Normals(rules, c.family, input.research), Normals(rules, c.family, input.runtime);
    ByKeyKeys(rules, research);
    ByKeyKeys(rules, runtime);
    AgreeByKeyIff(rules, c.family, research, runtime, c.left, c.right);
  }

  lemma PassIffClean(c: Comparison, m: Matrix)
    requires c.missingResearch == c.right.Keys - c.left.Keys && c.missingRuntime == c.left.Keys - c.right.Keys
    ensures OutcomeOf(c, m, c.codes) == PassPositiveEquivalence <==>
            && c.bindingCount == 0 && c.incompleteCount == 0 && c.codes == {}
            && c.left.Keys == c.right.Keys && c.mismatches == map[] && FailClosedTotal(m) == 0
  {
    OutcomePassIff(c, m, c.codes);
  }
}
