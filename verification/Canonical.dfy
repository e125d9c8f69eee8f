/** Normalising a canonical decision, and normalising the exported decision once more. */
module Canonical {
  import opened Wrappers
  import opened Text

  /** A payload value. Objects have text keys, as in JSON; a `Number` is an exact real. */
  datatype Value =
    | Null
    | Flag(flag: bool)
    | Whole(whole: int)
    | Number(number: real)
    | Words(text: string)
    | List(items: seq<Value>)
    | Tuple(items: seq<Value>)
    | Dict(fields: map<string, Value>)

  /** The field names in use; and printing, parsing, the order of an object's keys and hashing, which the
      model leaves open. */
  datatype Notation = Notation(
    names: Names,
    show: Value -> string,
    wholeOf: string -> Option<int>,
    numberOf: string -> Option<real>,
    keys: map<string, Value> -> seq<string>,
    digest: Value -> string)
  {
    /** Nothing prints as the empty text, and a digest is a non-empty text without outer spaces. */
    ghost predicate Valid() {
      && (forall v :: show(v) != "")
      && (forall v :: digest(v) != "" && Stripped(digest(v)))
    }
  }

  /** Fields that are all treated alike. */
  datatype Kind = Moment | Permission | Presence | Ratio | Evidence | Declared | Plain

  /** Payload keys: `Of` a kind, or treated on their own. */
  datatype Field =
    | Of(kind: Kind, name: string)
    | DecisionContractVersion | StrategyContractVersion | StrategyVersion | StrategyDecisionContractVersion
    | StrategyName | Side | RawSignal | FinalSignal | Blocked | BlockedFilters
    | FeatureSnapshotHash | StrategyBehaviorHash
    | FeatureSnapshot | Features | StrategySpecificPayload | StrategyBehaviorPayload
    | DiagnosticsNamespace | Diagnostics
    | FeatureHashMissing | BehaviorHashMissing | FallbackSkipped
    | PositionAuthority

  type Payload = map<Field, Value>

  const CONTRACT_VERSION := 2
  const LEGACY_STRATEGY_CONTRACT := "sma_strategy_v1"
  const FEATURE_HASH_MISSING := "feature_snapshot_hash_missing"
  const BEHAVIOR_HASH_MISSING := "strategy_behavior_hash_missing"

  // ----- The fields of the two contract versions -----

  /** The keys of the strategy behaviour that the pass puts together itself. */
  datatype BehaviorKeys = BehaviorKeys(
    name: string, version: string, contract: string, raw: string, final: string, specific: string)

  /** The names that the schema lists give for each kind: of both versions, of the first alone, of the second alone. */
  datatype Names = Names(
    moments: set<string>, permissions: set<string>, plain: set<string>,
    ratios: set<string>, legacyPlain: set<string>,
    submission: set<string>, presences: set<string>, evidences: set<string>, declared: set<string>,
    commonPlain: set<string>,
    behavior: BehaviorKeys)
  {
    function Listed(kind: Kind, version: int): set<string> {
      var legacy := version < CONTRACT_VERSION;
      match kind
      case Moment => moments
      case Permission => if legacy then permissions else permissions + submission
      case Presence => if legacy then {} else presences
      case Ratio => if legacy then ratios else {}
      case Evidence => if legacy then {} else evidences
      case Declared => if legacy then {} else declared
      case Plain => plain + if legacy then legacyPlain else commonPlain
    }
  }

  function KindFields(names: Names, version: int): (fields: set<Field>)
    ensures forall f :: f in fields <==> f.Of? && f.name in names.Listed(f.kind, version)
  {
    set kind: Kind, s | s in names.Listed(kind, version) :: Of(kind, s)
  }

  function Schema(names: Names, version: int): set<Field> {
    KindFields(names, version)
    + {DecisionContractVersion, StrategyName, Side, RawSignal, FinalSignal, Blocked, BlockedFilters}
    + if version < CONTRACT_VERSION then {StrategyContractVersion}
      else {StrategyVersion, StrategyDecisionContractVersion, FeatureSnapshotHash, StrategyBehaviorHash}
  }

  // ----- Reading one value -----

  function Get(p: Payload, f: Field): Value {
    if f in p then p[f] else Null
  }

  predicate Truthy(v: Value) {
    match v
    case Null => false
    case Flag(b) => b
    case Whole(k) => k != 0
    case Number(r) => r != 0.0
    case Words(t) => t != ""
    case List(s) => s != []
    case Tuple(s) => s != []
    case Dict(m) => m != map[]
  }

  predicate Given(v: Value) {
    v != Null && v != Words("")
  }

  function Shown(n: Notation, v: Value): string {
    if v.Words? then v.text else n.show(v)
  }

  function ShownOr(n: Notation, v: Value, default: string): string {
    if Truthy(v) then Shown(n, v) else default
  }

  /** The value as an integer, truncated toward zero; `None` is a raised error. */
  function WholeOf(n: Notation, v: Value): Option<int> {
    match v
    case Flag(b) => Some(if b then 1 else 0)
    case Whole(k) => Some(k)
    case Number(r) => Some(if r < 0.0 then -(-r).Floor else r.Floor)
    case Words(t) => n.wholeOf(t)
    case _ => None
  }

  function NumberOf(n: Notation, v: Value): Option<real> {
    match v
    case Flag(b) => Some(if b then 1.0 else 0.0)
    case Whole(k) => Some(k as real)
    case Number(r) => Some(r)
    case Words(t) => n.numberOf(t)
    case _ => None
  }

  /** What iterating over the value shows: characters, items or keys; `None` is a raised error. */
  function Elements(n: Notation, v: Value): Option<seq<string>> {
    match v
    case Words(t) => Some(seq(|t|, i requires 0 <= i < |t| => [t[i]]))
    case List(s) => Some(seq(|s|, i requires 0 <= i < |s| => Shown(n, s[i])))
    case Tuple(s) => Some(seq(|s|, i requires 0 <= i < |s| => Shown(n, s[i])))
    case Dict(m) => Some(n.keys(m))
    case _ => None
  }

  /** Tuples become lists, at every depth. */
  function Stable(v: Value): Value {
    match v
    case List(s) => List(seq(|s|, i requires 0 <= i < |s| => Stable(s[i])))
    case Tuple(s) => List(seq(|s|, i requires 0 <= i < |s| => Stable(s[i])))
    case Dict(m) => Dict(map k | k in m :: Stable(m[k]))
    case _ => v
  }

  /** No tuple at any depth: what JSON can hold. */
  ghost predicate Settled(v: Value) {
    match v
    case List(s) => forall i :: 0 <= i < |s| ==> Settled(s[i])
    case Tuple(_) => false
    case Dict(m) => forall k :: k in m ==> Settled(m[k])
    case _ => true
  }

  lemma {:induction false} StableSettles(v: Value)
    ensures Settled(Stable(v))
  {
    match v
    case List(s) => forall i | 0 <= i < |s| ensures Settled(Stable(s[i])) { StableSettles(s[i]); }
    case Tuple(s) => forall i | 0 <= i < |s| ensures Settled(Stable(s[i])) { StableSettles(s[i]); }
    case Dict(m) => forall k | k in m ensures Settled(Stable(m[k])) { StableSettles(m[k]); }
    case _ =>
  }

  lemma {:induction false} SettledUnchanged(v: Value)
    requires Settled(v)
    ensures Stable(v) == v
  {
    match v
    case List(s) =>
      forall i | 0 <= i < |s| ensures Stable(s[i]) == s[i] { SettledUnchanged(s[i]); }
      assert Stable(v).items == s;
    case Dict(m) =>
      forall k | k in m ensures Stable(m[k]) == m[k] { SettledUnchanged(m[k]); }
      assert Stable(v).fields == m;
    case _ =>
  }

  /** A value is left alone exactly when it holds no tuple, so a second pass changes nothing. */
  lemma StableFixedIff(v: Value)
    ensures Stable(v) == v <==> Settled(v)
    ensures Stable(Stable(v)) == Stable(v)
  {
    StableSettles(v);
    SettledUnchanged(Stable(v));
    if Settled(v) { SettledUnchanged(v); }
  }

  // ----- One pass -----

  function VersionOf(n: Notation, p: Payload): Option<int> {
    var v := Get(p, DecisionContractVersion);
    if Truthy(v) || (Given(v) && WholeOf(n, v).None?) then WholeOf(n, v) else Some(CONTRACT_VERSION)
  }

  function Version(n: Notation, p: Payload): int {
    match VersionOf(n, p) case Some(version) => version case None => CONTRACT_VERSION
  }

  function Signal(s: string): string {
    Upper(Strip(s))
  }

  function SideText(n: Notation, p: Payload): string {
    ShownOr(n, Get(p, Side), ShownOr(n, Get(p, FinalSignal), ""))
  }

  function FinalText(n: Notation, p: Payload): string {
    ShownOr(n, Get(p, FinalSignal), Signal(SideText(n, p)))
  }

  function ContractText(n: Notation, p: Payload): string {
    ShownOr(n, Get(p, StrategyDecisionContractVersion), ShownOr(n, Get(p, StrategyContractVersion), ""))
  }

  function ExplicitHash(n: Notation, p: Payload, f: Field): string {
    Strip(ShownOr(n, Get(p, f), ""))
  }

  predicate RatiosReadable(n: Notation, p: Payload) {
    forall s | s in n.names.ratios :: Given(Get(p, Of(Ratio, s))) ==> NumberOf(n, Get(p, Of(Ratio, s))).Some?
  }

  predicate MomentsReadable(n: Notation, p: Payload) {
    forall s | s in n.names.moments :: Given(Get(p, Of(Moment, s))) ==> WholeOf(n, Get(p, Of(Moment, s))).Some?
  }

  function RatioValue(n: Notation, v: Value): Value {
    if Given(v) && NumberOf(n, v).Some? then Number(NumberOf(n, v).value) else Null
  }

  function MomentValue(n: Notation, v: Value): Value {
    if Given(v) && WholeOf(n, v).Some? then Whole(WholeOf(n, v).value) else Null
  }

  function FiltersOf(n: Notation, p: Payload): Option<seq<string>> {
    if Truthy(Get(p, BlockedFilters)) then Elements(n, Get(p, BlockedFilters)) else Some([])
  }

  function Filters(n: Notation, p: Payload): seq<string> {
    match FiltersOf(n, p) case Some(texts) => texts case None => []
  }

  function Quoted(texts: seq<string>): seq<Value> {
    seq(|texts|, i requires 0 <= i < |texts| => Words(texts[i]))
  }

  /** The moving-average figures that the payload gives. */
  function LegacyPayload(n: Notation, p: Payload): Value {
    Dict(map s | s in n.names.ratios && Given(Get(p, Of(Ratio, s))) :: RatioValue(n, Get(p, Of(Ratio, s))))
  }

  /** The legacy figures are read when a payload that would replace them is missing. */
  predicate NeedsLegacy(p: Payload) {
    || !Get(p, StrategySpecificPayload).Dict?
    || (!Get(p, FeatureSnapshot).Dict? && !Get(p, Features).Dict?)
  }

  function SnapshotOf(n: Notation, p: Payload): Value {
    if Get(p, FeatureSnapshot).Dict? then Stable(Get(p, FeatureSnapshot))
    else if Get(p, Features).Dict? then Stable(Get(p, Features))
    else LegacyPayload(n, p)
  }

  function SpecificOf(n: Notation, p: Payload): Value {
    if Get(p, StrategySpecificPayload).Dict? then Stable(Get(p, StrategySpecificPayload)) else LegacyPayload(n, p)
  }

  function BehaviorPayload(
    keys: BehaviorKeys, name: string, version: string, contract: string, raw: string, final: string,
        specific: Value): Value
  {
    Dict(map[
      keys.name := Words(name), keys.version := Words(version), keys.contract := Words(contract),
      keys.raw := Words(raw), keys.final := Words(final), keys.specific := specific])
  }

  function BehaviorOf(n: Notation, p: Payload): Value {
    if Get(p, StrategyBehaviorPayload).Dict? then Stable(Get(p, StrategyBehaviorPayload))
    else BehaviorPayload(
      n.names.behavior,
      ShownOr(n, Get(p, StrategyName), ""), ShownOr(n, Get(p, StrategyVersion), ""), ContractText(n, p),
      Upper(ShownOr(n, Get(p, RawSignal), "")),
      Upper(ShownOr(n, Get(p, FinalSignal), ShownOr(n, Get(p, Side), ""))),
      SpecificOf(n, p))
  }

  function PlainText(n: Notation, v: Value): string {
    if v == Null then "" else Shown(n, v)
  }

  /** The pass raises no error. */
  predicate Readable(n: Notation, p: Payload) {
    && VersionOf(n, p).Some?
    && MomentsReadable(n, p)
    && FiltersOf(n, p).Some?
    && (Version(n, p) < CONTRACT_VERSION || NeedsLegacy(p) ==> RatiosReadable(n, p))
  }

  /** A hash that the payload lacks and that may not be computed is marked as missing. */
  predicate HashSkipped(n: Notation, p: Payload, fallback: bool, f: Field) {
    !fallback && ExplicitHash(n, p, f) == ""
  }

  function HashOf(n: Notation, p: Payload, fallback: bool, f: Field, content: Value, missing: string): string {
    if ExplicitHash(n, p, f) != "" then ExplicitHash(n, p, f)
    else if fallback then n.digest(Stable(content)) else missing
  }

  /** The keys that version 2 adds to its schema. */
  function Added(version: int, featureSkipped: bool, behaviorSkipped: bool): set<Field> {
    if version < CONTRACT_VERSION then {}
    else
      {FeatureSnapshot, StrategySpecificPayload, DiagnosticsNamespace, Diagnostics, StrategyBehaviorPayload}
      + (if featureSkipped then {FeatureHashMissing, FallbackSkipped} else {})
      + if behaviorSkipped then {BehaviorHashMissing, FallbackSkipped} else {}
  }

  function Keys(n: Notation, version: int, p: Payload, fallback: bool): set<Field> {
    Schema(n.names, version) + Added(
      version, HashSkipped(n, p, fallback, FeatureSnapshotHash), HashSkipped(n, p, fallback, StrategyBehaviorHash))
  }

  function KindValue(n: Notation, kind: Kind, v: Value): Value {
    match kind
    case Moment => MomentValue(n, v)
    case Permission => if v == Null then Null else Flag(Truthy(v))
    case Presence => Flag(Truthy(v))
    case Ratio => RatioValue(n, v)
    case Evidence => Stable(v)
    case Declared => Words(ShownOr(n, v, ""))
    case Plain => Words(PlainText(n, v))
  }

  /** The value that one field ends up with. */
  function Entry(n: Notation, p: Payload, fallback: bool, f: Field): Value {
    match f
    case Of(kind, _) => KindValue(n, kind, Get(p, f))
    case DecisionContractVersion => Whole(Version(n, p))
    case StrategyContractVersion => Words(ShownOr(n, Get(p, f), LEGACY_STRATEGY_CONTRACT))
    case StrategyVersion => Words(ShownOr(n, Get(p, f), ""))
    case StrategyDecisionContractVersion => Words(ContractText(n, p))
    case StrategyName => Words(PlainText(n, Get(p, f)))
    case Side => Words(Signal(SideText(n, p)))
    case RawSignal => Words(Signal(ShownOr(n, Get(p, f), "")))
    case FinalSignal => Words(Signal(FinalText(n, p)))
    case Blocked => Flag(Truthy(Get(p, f)))
    case BlockedFilters => Tuple(Quoted(Filters(n, p)))
    case FeatureSnapshotHash => Words(HashOf(n, p, fallback, f, SnapshotOf(n, p), FEATURE_HASH_MISSING))
    case StrategyBehaviorHash => Words(HashOf(n, p, fallback, f, BehaviorOf(n, p), BEHAVIOR_HASH_MISSING))
    case FeatureSnapshot => SnapshotOf(n, p)
    case StrategySpecificPayload => SpecificOf(n, p)
    case StrategyBehaviorPayload => BehaviorOf(n, p)
    case DiagnosticsNamespace => Words(ShownOr(n, Get(p, f), PlainText(n, Get(p, StrategyName))))
    case Diagnostics => if Get(p, f).Dict? then Stable(Get(p, f)) else Dict(map[])
    case FeatureHashMissing | BehaviorHashMissing | FallbackSkipped => Flag(true)
    case Features | PositionAuthority => Null
  }

  function Outcome(n: Notation, p: Payload, fallback: bool): Payload {
    map f | f in Keys(n, Version(n, p), p, fallback) :: Entry(n, p, fallback, f)
  }

  /** The normalised decision, field by field; `None` is a raised error. */
  function Normalized(n: Notation, p: Payload, fallback: bool): Option<Payload> {
    if Readable(n, p) then Some(Outcome(n, p, fallback)) else None
  }

  // ----- A second pass -----

  /**
    * `e` is the decision `d`, whose block filters may have become a list on the way through JSON
    * and which may have been given a position authority.
    */
  ghost predicate Carries(e: Payload, d: Payload) {
    && (forall f :: f != BlockedFilters && f != PositionAuthority ==> Get(e, f) == Get(d, f))
    && (|| Get(e, BlockedFilters) == Get(d, BlockedFilters)
        || (Get(d, BlockedFilters).Tuple? && Get(e, BlockedFilters) == List(Get(d, BlockedFilters).items)))
  }

  /** Side and final signal are both given, and exactly one of them is all spaces. */
  predicate OneSideBlank(n: Notation, p: Payload) {
    && Truthy(Get(p, Side)) && Truthy(Get(p, FinalSignal))
    && Blank(Shown(n, Get(p, Side))) != Blank(Shown(n, Get(p, FinalSignal)))
  }

  /** Some hash of a version 2 payload is marked as missing. */
  predicate SomeHashSkipped(n: Notation, p: Payload, fallback: bool) {
    HashSkipped(n, p, fallback, FeatureSnapshotHash) || HashSkipped(n, p, fallback, StrategyBehaviorHash)
  }

  lemma KindRepeats(n: Notation, kind: Kind, v: Value)
    requires n.Valid()
    ensures KindValue(n, kind, KindValue(n, kind, v)) == KindValue(n, kind, v)
  {
    StableFixedIff(v);
  }

  lemma SignalRepeats(s: string)
    ensures Signal(Signal(s)) == Signal(s)
    ensures Signal(s) == "" <==> Blank(s)
  {
    StripLaw(s);
    UpperStripped(Strip(s));
    StripLaw(Upper(Strip(s)));
    StripEmptyIff(s);
  }

  /** The two signals are kept exactly when not just one of them is blank. */
  lemma SignalsKeptIff(n: Notation, p: Payload, e: Payload)
    requires n.Valid()
    requires Get(e, Side) == Words(Signal(SideText(n, p))) && Get(e, FinalSignal) == Words(Signal(FinalText(n, p)))
    ensures Signal(SideText(n, e)) == Signal(SideText(n, p)) && Signal(FinalText(n, e)) == Signal(FinalText(n, p))
      <==> !OneSideBlank(n, p)
  {
    SignalRepeats(Shown(n, Get(p, Side)));
    SignalRepeats(Shown(n, Get(p, FinalSignal)));
    SignalRepeats(SideText(n, p));
    SignalRepeats(FinalText(n, p));
    SignalRepeats("");
  }

  lemma LegacySettled(n: Notation, p: Payload)
    ensures Settled(LegacyPayload(n, p))
  {
  }

  lemma PayloadSettled(
    keys: BehaviorKeys, name: string, version: string, contract: string, raw: string, final: string, specific: Value)
    requires Settled(specific)
    ensures BehaviorPayload(keys, name, version, contract, raw, final, specific).Dict?
    ensures Settled(BehaviorPayload(keys, name, version, contract, raw, final, specific))
  {
  }

  /** The three payloads come out as settled objects, however they were obtained. */
  lemma SnapshotSettled(n: Notation, p: Payload)
    ensures SnapshotOf(n, p).Dict? && Settled(SnapshotOf(n, p))
  {
    StableSettles(Get(p, FeatureSnapshot));
    StableSettles(Get(p, Features));
    LegacySettled(n, p);
  }

  lemma SpecificSettled(n: Notation, p: Payload)
    ensures SpecificOf(n, p).Dict? && Settled(SpecificOf(n, p))
  {
    StableSettles(Get(p, StrategySpecificPayload));
    LegacySettled(n, p);
  }

  lemma BehaviorSettled(n: Notation, p: Payload)
    ensures BehaviorOf(n, p).Dict? && Settled(BehaviorOf(n, p))
  {
    if Get(p, StrategyBehaviorPayload).Dict? {
      StableSettles(Get(p, StrategyBehaviorPayload));
    } else {
      SpecificSettled(n, p);
      PayloadSettled(
        n.names.behavior,
        ShownOr(n, Get(p, StrategyName), ""), ShownOr(n, Get(p, StrategyVersion), ""), ContractText(n, p),
        Upper(ShownOr(n, Get(p, RawSignal), "")),
        Upper(ShownOr(n, Get(p, FinalSignal), ShownOr(n, Get(p, Side), ""))),
        SpecificOf(n, p));
    }
  }

  /** A hash is neither empty nor padded. */
  lemma HashPlain(n: Notation, p: Payload, fallback: bool, f: Field, content: Value, missing: string)
    requires n.Valid() && missing != "" && Stripped(missing)
    ensures HashOf(n, p, fallback, f, content, missing) != ""
    ensures Stripped(HashOf(n, p, fallback, f, content, missing))
  {
    StripLaw(ShownOr(n, Get(p, f), ""));
  }

  lemma HashEntryPlain(n: Notation, p: Payload, fallback: bool, f: Field)
    requires n.Valid() && (f == FeatureSnapshotHash || f == StrategyBehaviorHash)
    ensures Entry(n, p, fallback, f).Words?
    ensures Entry(n, p, fallback, f).text != "" && Stripped(Entry(n, p, fallback, f).text)
  {
    MarksPlain();
    if f == FeatureSnapshotHash {
      HashPlain(n, p, fallback, f, SnapshotOf(n, p), FEATURE_HASH_MISSING);
    } else {
      HashPlain(n, p, fallback, f, BehaviorOf(n, p), BEHAVIOR_HASH_MISSING);
    }
  }

  lemma PlainIsExplicit(n: Notation, e: Payload, f: Field, hash: string)
    requires Get(e, f) == Words(hash) && hash != "" && Stripped(hash)
    ensures ExplicitHash(n, e, f) == hash
  {
    StripLaw(hash);
  }

  lemma FiltersRepeat(n: Notation, texts: seq<string>, p: Payload)
    requires Get(p, BlockedFilters) == Tuple(Quoted(texts)) || Get(p, BlockedFilters) == List(Quoted(texts))
    ensures FiltersOf(n, p) == Some(texts)
  {
    if texts != [] {
      assert Elements(n, Get(p, BlockedFilters)).value == texts;
    }
  }

  /** The second pass reads what the first wrote. */
  predicate ReadsBack(n: Notation, p: Payload, fallback: bool, e: Payload, f: Field) {
    Get(e, f) == if f in Keys(n, Version(n, p), p, fallback) then Entry(n, p, fallback, f) else Null
  }

  ghost predicate SecondLook(n: Notation, p: Payload, fallback: bool, e: Payload) {
    && n.Valid()
    && (forall f :: f != BlockedFilters && f != PositionAuthority ==> ReadsBack(n, p, fallback, e, f))
    && (Get(e, BlockedFilters) == Tuple(Quoted(Filters(n, p))) || Get(e, BlockedFilters) == List(Quoted(Filters(n, p))))
  }

  lemma ReadBack(n: Notation, p: Payload, fallback: bool, e: Payload, f: Field)
    requires SecondLook(n, p, fallback, e) && f != BlockedFilters && f != PositionAuthority
    ensures Get(e, f) == if f in Keys(n, Version(n, p), p, fallback) then Entry(n, p, fallback, f) else Null
  {
    assert ReadsBack(n, p, fallback, e, f);
  }

  lemma OutcomeAt(n: Notation, p: Payload, fallback: bool, f: Field)
    ensures Get(Outcome(n, p, fallback), f)
      == if f in Keys(n, Version(n, p), p, fallback) then Entry(n, p, fallback, f) else Null
  {
  }

  lemma FiltersEntry(n: Notation, p: Payload, fallback: bool)
    ensures Entry(n, p, fallback, BlockedFilters) == Tuple(Quoted(Filters(n, p)))
  {
  }

  lemma EntryIn(d: Payload, keys: set<Field>, f: Field, v: Value)
    requires f in keys
    requires Get(d, f) == if f in keys then v else Null
    ensures Get(d, f) == v
  {
  }

  lemma OutcomeFilters(n: Notation, p: Payload, fallback: bool)
    ensures Get(Outcome(n, p, fallback), BlockedFilters) == Tuple(Quoted(Filters(n, p)))
  {
    CommonFields(n, Version(n, p), p, fallback);
    OutcomeAt(n, p, fallback, BlockedFilters);
    FiltersEntry(n, p, fallback);
    EntryIn(Outcome(n, p, fallback), Keys(n, Version(n, p), p, fallback), BlockedFilters, Tuple(Quoted(Filters(n, p))));
  }

  lemma CarriedIsReadBack(n: Notation, p: Payload, fallback: bool, e: Payload)
    requires n.Valid() && Carries(e, Outcome(n, p, fallback))
    ensures SecondLook(n, p, fallback, e)
  {
    forall f | f != BlockedFilters && f != PositionAuthority ensures ReadsBack(n, p, fallback, e, f) {
      OutcomeAt(n, p, fallback, f);
    }
    OutcomeFilters(n, p, fallback);
  }

  lemma FiltersReadBack(n: Notation, p: Payload, fallback: bool, e: Payload)
    requires SecondLook(n, p, fallback, e)
    ensures FiltersOf(n, e) == Some(Filters(n, p))
  {
    FiltersRepeat(n, Filters(n, p), e);
  }

  lemma VersionReadBack(n: Notation, p: Payload, fallback: bool, e: Payload)
    requires SecondLook(n, p, fallback, e)
    ensures VersionOf(n, e) == Some(if Version(n, p) == 0 then CONTRACT_VERSION else Version(n, p))
  {
    ReadBack(n, p, fallback, e, DecisionContractVersion);
  }

  lemma MomentsReadBack(n: Notation, p: Payload, fallback: bool, e: Payload)
    requires SecondLook(n, p, fallback, e)
    ensures MomentsReadable(n, e)
  {
    forall s | s in n.names.moments && Given(Get(e, Of(Moment, s))) ensures WholeOf(n, Get(e, Of(Moment, s))).Some? {
      ReadBack(n, p, fallback, e, Of(Moment, s));
    }
  }

  lemma RatiosReadBack(n: Notation, p: Payload, fallback: bool, e: Payload)
    requires SecondLook(n, p, fallback, e)
    ensures RatiosReadable(n, e)
  {
    forall s | s in n.names.ratios && Given(Get(e, Of(Ratio, s))) ensures NumberOf(n, Get(e, Of(Ratio, s))).Some? {
      ReadBack(n, p, fallback, e, Of(Ratio, s));
    }
  }

  lemma SecondPassReadable(n: Notation, p: Payload, fallback: bool, e: Payload)
    requires SecondLook(n, p, fallback, e)
    ensures Readable(n, e)
  {
    VersionReadBack(n, p, fallback, e);
    FiltersReadBack(n, p, fallback, e);
    MomentsReadBack(n, p, fallback, e);
    RatiosReadBack(n, p, fallback, e);
  }

  lemma MarksPlain()
    ensures FEATURE_HASH_MISSING != "" && Stripped(FEATURE_HASH_MISSING)
    ensures BEHAVIOR_HASH_MISSING != "" && Stripped(BEHAVIOR_HASH_MISSING)
  {
  }

  lemma HashKeysInSchema(n: Notation, version: int, p: Payload, fallback: bool)
    ensures version >= CONTRACT_VERSION ==>
      FeatureSnapshotHash in Keys(n, version, p, fallback) && StrategyBehaviorHash in Keys(n, version, p, fallback)
  {
  }

  /** The second pass finds both hashes explicit, so it marks none as missing. */
  lemma HashReadBack(n: Notation, p: Payload, fallback: bool, e: Payload, f: Field)
    requires SecondLook(n, p, fallback, e) && Version(n, p) >= CONTRACT_VERSION
    requires f == FeatureSnapshotHash || f == StrategyBehaviorHash
    ensures Entry(n, p, fallback, f) == Words(ExplicitHash(n, e, f))
    ensures ExplicitHash(n, e, f) != ""
  {
    HashKeysInSchema(n, Version(n, p), p, fallback);
    ReadBack(n, p, fallback, e, f);
    HashEntryPlain(n, p, fallback, f);
    PlainIsExplicit(n, e, f, Entry(n, p, fallback, f).text);
  }

  lemma NoMarkInSchema(names: Names, version: int)
    ensures FallbackSkipped !in Schema(names, version)
  {
  }

  /** Without a mark the keys depend on the version alone; a mark is a key of its own. */
  lemma KeysByMarks(schema: set<Field>, version: int, featureSkipped: bool, behaviorSkipped: bool)
    requires FallbackSkipped !in schema
    ensures schema + Added(version, false, false) == schema + Added(version, featureSkipped, behaviorSkipped)
      <==> version < CONTRACT_VERSION || !(featureSkipped || behaviorSkipped)
  {
    assert version >= CONTRACT_VERSION && (featureSkipped || behaviorSkipped)
      ==> FallbackSkipped in schema + Added(version, featureSkipped, behaviorSkipped);
  }

  /** The same keys come out of the second pass exactly when the first marked no hash as missing. */
  lemma KeysKeptIff(n: Notation, p: Payload, fallback: bool, e: Payload, fallback': bool)
    requires SecondLook(n, p, fallback, e)
    ensures var version := Version(n, p);
      Keys(n, version, e, fallback') == Keys(n, version, p, fallback)
      <==> version < CONTRACT_VERSION || !SomeHashSkipped(n, p, fallback)
  {
    if Version(n, p) >= CONTRACT_VERSION {
      HashReadBack(n, p, fallback, e, FeatureSnapshotHash);
      HashReadBack(n, p, fallback, e, StrategyBehaviorHash);
    }
    var version := Version(n, p);
    var featureSkipped := HashSkipped(n, p, fallback, FeatureSnapshotHash);
    var behaviorSkipped := HashSkipped(n, p, fallback, StrategyBehaviorHash);
    NoMarkInSchema(n.names, version);
    KeysByMarks(Schema(n.names, version), version, featureSkipped, behaviorSkipped);
  }

  /** What one field reads in the second pass. */
  predicate FieldReadBack(n: Notation, p: Payload, fallback: bool, e: Payload, f: Field) {
    Get(e, f) == Entry(n, p, fallback, f)
  }

  lemma KindKept(n: Notation, p: Payload, fallback: bool, e: Payload, fallback': bool, f: Field)
    requires n.Valid() && f.Of? && FieldReadBack(n, p, fallback, e, f)
    ensures Entry(n, e, fallback', f) == Entry(n, p, fallback, f)
  {
    KindRepeats(n, f.kind, Get(p, f));
  }

  lemma TextKept(n: Notation, p: Payload, fallback: bool, e: Payload, fallback': bool, f: Field)
    requires n.Valid() && FieldReadBack(n, p, fallback, e, f)
    requires f in {StrategyContractVersion, StrategyVersion, StrategyName, RawSignal, Blocked}
    ensures Entry(n, e, fallback', f) == Entry(n, p, fallback, f)
  {
    SignalRepeats(ShownOr(n, Get(p, f), ""));
    SignalRepeats("");
  }

  lemma PayloadKept(n: Notation, p: Payload, fallback: bool, e: Payload, fallback': bool, f: Field)
    requires n.Valid() && FieldReadBack(n, p, fallback, e, f)
    requires f in {FeatureSnapshot, StrategySpecificPayload, StrategyBehaviorPayload, Diagnostics}
    ensures Entry(n, e, fallback', f) == Entry(n, p, fallback, f)
  {
    if f == FeatureSnapshot {
      SnapshotSettled(n, p);
    } else if f == StrategySpecificPayload {
      SpecificSettled(n, p);
    } else if f == StrategyBehaviorPayload {
      BehaviorSettled(n, p);
    } else {
      StableSettles(Get(p, f));
    }
    SettledUnchanged(Entry(n, p, fallback, f));
  }

  /** Texts that fall back on another field. */
  lemma FallbackTextKept(n: Notation, p: Payload, fallback: bool, e: Payload, fallback': bool)
    requires n.Valid()
    requires FieldReadBack(n, p, fallback, e, StrategyName)
    requires FieldReadBack(n, p, fallback, e, DiagnosticsNamespace)
    requires FieldReadBack(n, p, fallback, e, StrategyDecisionContractVersion)
        && Get(e, StrategyContractVersion) == Null
    ensures Entry(n, e, fallback', DiagnosticsNamespace) == Entry(n, p, fallback, DiagnosticsNamespace)
    ensures Entry(n, e, fallback', StrategyDecisionContractVersion)
      == Entry(n, p, fallback, StrategyDecisionContractVersion)
  {
  }

  lemma VersionFields(n: Notation, version: int, p: Payload, fallback: bool, f: Field)
    requires f in Keys(n, version, p, fallback)
    requires f in {FeatureSnapshotHash, StrategyBehaviorHash, DiagnosticsNamespace, StrategyDecisionContractVersion}
    ensures version >= CONTRACT_VERSION
  {
  }

  lemma LegacyFieldAbsent(n: Notation, version: int, p: Payload, fallback: bool)
    requires version >= CONTRACT_VERSION
    ensures StrategyContractVersion !in Keys(n, version, p, fallback)
  {
  }

  lemma CommonFields(n: Notation, version: int, p: Payload, fallback: bool)
    ensures DecisionContractVersion in Keys(n, version, p, fallback)
    ensures Side in Keys(n, version, p, fallback) && FinalSignal in Keys(n, version, p, fallback)
    ensures StrategyName in Keys(n, version, p, fallback) && BlockedFilters in Keys(n, version, p, fallback)
  {
  }

  lemma NewFields(n: Notation, version: int, p: Payload, fallback: bool)
    requires version >= CONTRACT_VERSION
    ensures DiagnosticsNamespace in Keys(n, version, p, fallback)
    ensures StrategyDecisionContractVersion in Keys(n, version, p, fallback)
  {
  }

  lemma NewEntryKept(n: Notation, p: Payload, fallback: bool, e: Payload, fallback': bool, f: Field)
    requires SecondLook(n, p, fallback, e) && Version(n, p) >= CONTRACT_VERSION
    requires f in {FeatureSnapshotHash, StrategyBehaviorHash, DiagnosticsNamespace, StrategyDecisionContractVersion}
    ensures Entry(n, e, fallback', f) == Entry(n, p, fallback, f)
  {
    match f
    case FeatureSnapshotHash | StrategyBehaviorHash => HashReadBack(n, p, fallback, e, f);
    case _ =>
      CommonFields(n, Version(n, p), p, fallback);
      NewFields(n, Version(n, p), p, fallback);
      LegacyFieldAbsent(n, Version(n, p), p, fallback);
      ReadBack(n, p, fallback, e, StrategyName);
      ReadBack(n, p, fallback, e, DiagnosticsNamespace);
      ReadBack(n, p, fallback, e, StrategyDecisionContractVersion);
      ReadBack(n, p, fallback, e, StrategyContractVersion);
      FallbackTextKept(n, p, fallback, e, fallback');
  }

  /** Every field other than the two signals comes out of the second pass as it went in. */
  lemma EntryKept(n: Notation, p: Payload, fallback: bool, e: Payload, fallback': bool, f: Field)
    requires SecondLook(n, p, fallback, e) && Version(n, p) != 0
    requires f in Keys(n, Version(n, p), p, fallback) && f != Side && f != FinalSignal
    ensures Entry(n, e, fallback', f) == Entry(n, p, fallback, f)
  {
    if f != BlockedFilters && f != PositionAuthority {
      ReadBack(n, p, fallback, e, f);
    }
    match f
    case Of(_, _) => KindKept(n, p, fallback, e, fallback', f);
    case StrategyContractVersion | StrategyVersion | StrategyName | RawSignal | Blocked =>
      TextKept(n, p, fallback, e, fallback', f);
    case FeatureSnapshot | StrategySpecificPayload | StrategyBehaviorPayload | Diagnostics =>
      PayloadKept(n, p, fallback, e, fallback', f);
    case DecisionContractVersion => VersionReadBack(n, p, fallback, e);
    case BlockedFilters => FiltersReadBack(n, p, fallback, e);
    case FeatureSnapshotHash | StrategyBehaviorHash | DiagnosticsNamespace | StrategyDecisionContractVersion =>
      VersionFields(n, Version(n, p), p, fallback, f);
      NewEntryKept(n, p, fallback, e, fallback', f);
    case _ =>
  }

  lemma SignalEntries(n: Notation, p: Payload, fallback: bool)
    ensures Entry(n, p, fallback, Side) == Words(Signal(SideText(n, p)))
    ensures Entry(n, p, fallback, FinalSignal) == Words(Signal(FinalText(n, p)))
  {
  }

  lemma SignalsReadBack(n: Notation, p: Payload, fallback: bool, e: Payload)
    requires SecondLook(n, p, fallback, e)
    ensures Get(e, Side) == Words(Signal(SideText(n, p))) && Get(e, FinalSignal) == Words(Signal(FinalText(n, p)))
  {
    CommonFields(n, Version(n, p), p, fallback);
    ReadBack(n, p, fallback, e, Side);
    ReadBack(n, p, fallback, e, FinalSignal);
    SignalEntries(n, p, fallback);
  }

  lemma SignalEntriesKeptIff(n: Notation, p: Payload, fallback: bool, e: Payload, fallback': bool)
    requires SecondLook(n, p, fallback, e)
    ensures && Entry(n, e, fallback', Side) == Entry(n, p, fallback, Side)
            && Entry(n, e, fallback', FinalSignal) == Entry(n, p, fallback, FinalSignal)
      <==> !OneSideBlank(n, p)
  {
    SignalsReadBack(n, p, fallback, e);
    SignalsKeptIff(n, p, e);
    SignalEntries(n, p, fallback);
    SignalEntries(n, e, fallback');
  }

  /** A caller can tell beforehand whether a second pass changes anything. */
  predicate PassesOnce(n: Notation, p: Payload, fallback: bool) {
    && Version(n, p) != 0
    && !OneSideBlank(n, p)
    && (Version(n, p) < CONTRACT_VERSION || !SomeHashSkipped(n, p, fallback))
  }

  lemma SameOutcome(n: Notation, p: Payload, fallback: bool, e: Payload, fallback': bool)
    requires SecondLook(n, p, fallback, e) && PassesOnce(n, p, fallback)
    ensures Outcome(n, e, fallback') == Outcome(n, p, fallback)
  {
    var d := Outcome(n, p, fallback);
    var d' := Outcome(n, e, fallback');
    VersionReadBack(n, p, fallback, e);
    KeysKeptIff(n, p, fallback, e, fallback');
    assert d'.Keys == d.Keys;
    SignalEntriesKeptIff(n, p, fallback, e, fallback');
    forall f | f in d ensures d'[f] == d[f] {
      if f != Side && f != FinalSignal {
        EntryKept(n, p, fallback, e, fallback', f);
      }
    }
  }

  lemma EntriesDiffer(n: Notation, p: Payload, fallback: bool, e: Payload, fallback': bool, f: Field)
    requires f == DecisionContractVersion || f == Side || f == FinalSignal
    requires Entry(n, e, fallback', f) != Entry(n, p, fallback, f)
    ensures Outcome(n, e, fallback') != Outcome(n, p, fallback)
  {
    CommonFields(n, Version(n, p), p, fallback);
    CommonFields(n, Version(n, e), e, fallback');
    OutcomeAt(n, p, fallback, f);
    OutcomeAt(n, e, fallback', f);
  }

  lemma KeysDiffer(n: Notation, p: Payload, fallback: bool, e: Payload, fallback': bool)
    requires Keys(n, Version(n, e), e, fallback') != Keys(n, Version(n, p), p, fallback)
    ensures Outcome(n, e, fallback') != Outcome(n, p, fallback)
  {
    assert Outcome(n, p, fallback).Keys == Keys(n, Version(n, p), p, fallback);
    assert Outcome(n, e, fallback').Keys == Keys(n, Version(n, e), e, fallback');
  }

  lemma OtherOutcome(n: Notation, p: Payload, fallback: bool, e: Payload, fallback': bool)
    requires SecondLook(n, p, fallback, e) && !PassesOnce(n, p, fallback)
    ensures Outcome(n, e, fallback') != Outcome(n, p, fallback)
  {
    VersionReadBack(n, p, fallback, e);
    if Version(n, p) == 0 {
      EntriesDiffer(n, p, fallback, e, fallback', DecisionContractVersion);
    } else if OneSideBlank(n, p) {
      SignalEntriesKeptIff(n, p, fallback, e, fallback');
      var f := if Entry(n, e, fallback', Side) != Entry(n, p, fallback, Side) then Side else FinalSignal;
      EntriesDiffer(n, p, fallback, e, fallback', f);
    } else {
      KeysKeptIff(n, p, fallback, e, fallback');
      KeysDiffer(n, p, fallback, e, fallback');
    }
  }

  /**
    * Normalising a normalised decision, directly or read back from its JSON export, changes no
    * field exactly when the version is not zero, not just one of side and final signal is blank,
    * and no hash was marked as missing. Whether the second pass may compute hashes is irrelevant.
    */
  lemma SecondPassKeepsIff(n: Notation, p: Payload, fallback: bool, e: Payload, fallback': bool)
    requires n.Valid() && Readable(n, p) && Carries(e, Normalized(n, p, fallback).value)
    ensures Normalized(n, e, fallback') == Normalized(n, p, fallback) <==> PassesOnce(n, p, fallback)
  {
    CarriedIsReadBack(n, p, fallback, e);
    SecondPassReadable(n, p, fallback, e);
    if PassesOnce(n, p, fallback) {
      SameOutcome(n, p, fallback, e, fallback');
    } else {
      OtherOutcome(n, p, fallback, e, fallback');
    }
  }

  // ----- Export and comparison -----

  /** An exported decision read back from its JSON text. */
  function Reloaded(d: Payload): Payload {
    map f | f in d :: Stable(d[f])
  }

  lemma EntrySettled(n: Notation, p: Payload, fallback: bool, f: Field)
    requires f != BlockedFilters
    ensures Stable(Entry(n, p, fallback, f)) == Entry(n, p, fallback, f)
  {
    match f
    case Of(_, _) => StableFixedIff(Get(p, f));
    case FeatureSnapshot => SnapshotSettled(n, p); SettledUnchanged(SnapshotOf(n, p));
    case StrategySpecificPayload => SpecificSettled(n, p); SettledUnchanged(SpecificOf(n, p));
    case StrategyBehaviorPayload => BehaviorSettled(n, p); SettledUnchanged(BehaviorOf(n, p));
    case Diagnostics => StableFixedIff(Get(p, f));
    case _ =>
  }

  lemma ReloadedFilters(texts: seq<string>)
    ensures Stable(Tuple(Quoted(texts))) == List(Quoted(texts))
  {
    assert Stable(Tuple(Quoted(texts))).items == Quoted(texts);
  }

  lemma ReloadedCarries(n: Notation, p: Payload, fallback: bool)
    ensures Carries(Reloaded(Outcome(n, p, fallback)), Outcome(n, p, fallback))
  {
    var d := Outcome(n, p, fallback);
    var e := Reloaded(d);
    forall f | f != BlockedFilters && f != PositionAuthority ensures Get(e, f) == Get(d, f) {
      OutcomeAt(n, p, fallback, f);
      EntrySettled(n, p, fallback, f);
    }
    OutcomeFilters(n, p, fallback);
    ReloadedFilters(Filters(n, p));
  }

  /** The comparison normalises a canonical decision again and keeps its position authority. */
  function ForComparison(n: Notation, item: Payload): Option<Payload> {
    match Normalized(n, item, true)
    case None => None
    case Some(d) =>
      Some(if Get(item, PositionAuthority).Dict? then d[PositionAuthority := Get(item, PositionAuthority)] else d)
  }

  lemma NoAuthorityKey(n: Notation, version: int, p: Payload, fallback: bool)
    ensures PositionAuthority !in Keys(n, version, p, fallback)
  {
    assert PositionAuthority !in Schema(n.names, version);
  }

  lemma ExportHasNoAuthority(n: Notation, p: Payload, fallback: bool)
    ensures PositionAuthority !in Reloaded(Outcome(n, p, fallback))
  {
    NoAuthorityKey(n, Version(n, p), p, fallback);
    assert Outcome(n, p, fallback).Keys == Keys(n, Version(n, p), p, fallback);
    assert Reloaded(Outcome(n, p, fallback)).Keys == Outcome(n, p, fallback).Keys;
  }

  function WithAuthority(d: Payload, authority: Option<Value>): Payload {
    match authority case None => d case Some(v) => d[PositionAuthority := v]
  }

  lemma AuthorityCarries(e: Payload, d: Payload, authority: Option<Value>)
    requires Carries(e, d)
    ensures Carries(WithAuthority(e, authority), d)
  {
  }

  lemma AuthorityKept(n: Notation, e: Payload, d: Payload, authority: Option<Value>)
    requires PositionAuthority !in e && Normalized(n, WithAuthority(e, authority), true) == Some(d)
    ensures ForComparison(n, WithAuthority(e, authority))
      == Some(WithAuthority(d, if authority.Some? && authority.value.Dict? then authority else None))
  {
  }

  /**
    * Exporting a decision and comparing it later shows the comparison exactly the exported
    * values, whatever position authority was attached to the exported item in between; an
    * authority that is not an object is dropped.
    */
  lemma ComparisonSeesExport(n: Notation, p: Payload, authority: Option<Value>)
    requires n.Valid() && Readable(n, p) && Version(n, p) != 0 && !OneSideBlank(n, p)
    ensures var exported := Normalized(n, p, true).value;
      ForComparison(n, WithAuthority(Reloaded(exported), authority))
      == Some(WithAuthority(exported, if authority.Some? && authority.value.Dict? then authority else None))
  {
    var exported := Outcome(n, p, true);
    ReloadedCarries(n, p, true);
    AuthorityCarries(Reloaded(exported), exported, authority);
    SecondPassKeepsIff(n, p, true, WithAuthority(Reloaded(exported), authority), true);
    ExportHasNoAuthority(n, p, true);
    AuthorityKept(n, Reloaded(exported), exported, authority);
  }

  /** The second pass changes a decision that does not pass once, read back as it was written. */
  lemma SecondPassChanges(n: Notation, p: Payload, fallback: bool, fallback': bool)
    requires n.Valid() && Readable(n, p) && !PassesOnce(n, p, fallback)
    ensures Normalized(n, Normalized(n, p, fallback).value, fallback') != Normalized(n, p, fallback)
  {
    SecondPassKeepsIff(n, p, fallback, Normalized(n, p, fallback).value, fallback');
  }

  /** Inputs that a second pass does change: a blank side, a version that truncates to zero, and hashes
      that could not be computed. */
  lemma BlankSideChanges(n: Notation, fallback: bool, fallback': bool)
    requires n.Valid()
    ensures var p := map[Side := Words(" "), FinalSignal := Words("BUY")];
      && Readable(n, p)
      && Normalized(n, Normalized(n, p, fallback).value, fallback') != Normalized(n, p, fallback)
  {
    var p := map[Side := Words(" "), FinalSignal := Words("BUY")];
    assert IsSpace(' ') && !IsSpace("BUY"[0]);
    assert OneSideBlank(n, p);
    SecondPassChanges(n, p, fallback, fallback');
  }

  lemma ZeroVersionChanges(n: Notation, fallback: bool, fallback': bool)
    requires n.Valid()
    ensures var p := map[DecisionContractVersion := Number(0.5)];
      && Readable(n, p)
      && Normalized(n, Normalized(n, p, fallback).value, fallback') != Normalized(n, p, fallback)
  {
    var p := map[DecisionContractVersion := Number(0.5)];
    assert 0.5.Floor == 0;
    assert Version(n, p) == 0;
    SecondPassChanges(n, p, fallback, fallback');
  }

  lemma SkippedHashChanges(n: Notation, fallback': bool)
    requires n.Valid()
    ensures var p: Payload := map[];
      && Readable(n, p)
      && Normalized(n, Normalized(n, p, false).value, fallback') != Normalized(n, p, false)
  {
    var p: Payload := map[];
    assert ExplicitHash(n, p, FeatureSnapshotHash) == "";
    SecondPassChanges(n, p, false, fallback');
  }
}
