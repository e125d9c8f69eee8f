/** What every field of a normalised decision is, said of the payload alone. */
module CanonicalMeaning {
  import opened Wrappers
  import opened Text
  import opened Canonical

  // ----- Reading -----

  /** The values that count as not given where a default applies. */
  lemma FalsyIff(v: Value)
    ensures !Truthy(v) <==>
      || v == Null || v == Flag(false) || v == Whole(0) || v == Number(0.0) || v == Words("")
      || v == List([]) || v == Tuple([]) || v == Dict(map[])
  {
  }

  /** A text is itself, everything else is printed. */
  predicate Prints(n: Notation, v: Value, t: string) { if v.Words? then t == v.text else t == n.show(v) }

  /** A value as an integer: flags are one or zero, numbers lose their fraction, texts are parsed. */
  predicate IsWhole(n: Notation, v: Value, k: int) {
    match v
    case Flag(b) => k == if b then 1 else 0
    case Whole(j) => k == j
    case Number(r) => if r < 0.0 then k as real - 1.0 < r <= k as real else k as real <= r < k as real + 1.0
    case Words(t) => n.wholeOf(t) == Some(k)
    case _ => false
  }

  predicate IsNumber(n: Notation, v: Value, x: real) {
    match v
    case Flag(b) => x == if b then 1.0 else 0.0
    case Whole(j) => x == j as real
    case Number(r) => x == r
    case Words(t) => n.numberOf(t) == Some(x)
    case _ => false
  }

  lemma WholeRead(n: Notation, v: Value, k: int)
    ensures WholeOf(n, v) == Some(k) <==> IsWhole(n, v, k)
  {
  }

  lemma NumberRead(n: Notation, v: Value, x: real)
    ensures NumberOf(n, v) == Some(x) <==> IsNumber(n, v, x)
  {
  }

  /** The payload has a version: its own, or 2 where it gives none. */
  predicate IsVersion(n: Notation, p: Payload, version: int) {
    var v := Get(p, DecisionContractVersion);
    if v in [Null, Flag(false), Whole(0), Number(0.0), Words("")] then version == 2 else IsWhole(n, v, version)
  }

  lemma VersionIs(n: Notation, p: Payload, fallback: bool, d: Payload)
    requires Normalized(n, p, fallback) == Some(d)
    ensures IsVersion(n, p, Version(n, p)) && DecisionContractVersion in d
        && d[DecisionContractVersion] == Whole(Version(n, p))
  {
    CommonFields(n, Version(n, p), p, fallback);
    FalsyIff(Get(p, DecisionContractVersion));
  }

  // ----- Which fields there are -----

  /** The payload gives no hash: nothing, or a text of spaces. */
  predicate NoHash(n: Notation, p: Payload, f: Field) {
    !Truthy(Get(p, f)) || Blank(Shown(n, Get(p, f)))
  }

  predicate HasKind(names: Names, version: int, kind: Kind, s: string) {
    match kind
    case Moment => s in names.moments
    case Permission => s in names.permissions || (version >= 2 && s in names.submission)
    case Presence => version >= 2 && s in names.presences
    case Ratio => version < 2 && s in names.ratios
    case Evidence => version >= 2 && s in names.evidences
    case Declared => version >= 2 && s in names.declared
    case Plain =>
      || s in names.plain
      || (version < 2 && s in names.legacyPlain)
      || (version >= 2 && s in names.commonPlain)
  }

  predicate HasField(n: Notation, p: Payload, fallback: bool, version: int, f: Field) {
    match f
    case Of(kind, s) => HasKind(n.names, version, kind, s)
    case DecisionContractVersion | StrategyName | Side | RawSignal | FinalSignal | Blocked | BlockedFilters => true
    case StrategyContractVersion => version < 2
    case FeatureHashMissing => version >= 2 && !fallback && NoHash(n, p, FeatureSnapshotHash)
    case BehaviorHashMissing => version >= 2 && !fallback && NoHash(n, p, StrategyBehaviorHash)
    case FallbackSkipped =>
      version >= 2 && !fallback && (NoHash(n, p, FeatureSnapshotHash) || NoHash(n, p, StrategyBehaviorHash))
    case Features | PositionAuthority => false
    case _ => version >= 2
  }

  lemma NoHashIff(n: Notation, p: Payload, f: Field)
    ensures ExplicitHash(n, p, f) == "" <==> NoHash(n, p, f)
  {
    StripEmptyIff(Shown(n, Get(p, f)));
    StripEmptyIff("");
  }

  lemma KindListed(names: Names, version: int, kind: Kind, s: string)
    ensures Of(kind, s) in Schema(names, version) <==> HasKind(names, version, kind, s)
  {
  }

  lemma OtherListed(names: Names, version: int, f: Field, featureSkipped: bool, behaviorSkipped: bool)
    requires !f.Of?
    ensures f in Schema(names, version) + Added(version, featureSkipped, behaviorSkipped) <==>
      match f
      case DecisionContractVersion | StrategyName | Side | RawSignal | FinalSignal | Blocked | BlockedFilters => true
      case StrategyContractVersion => version < 2
      case FeatureHashMissing => version >= 2 && featureSkipped
      case BehaviorHashMissing => version >= 2 && behaviorSkipped
      case FallbackSkipped => version >= 2 && (featureSkipped || behaviorSkipped)
      case Features | PositionAuthority => false
      case _ => version >= 2
  {
  }

  lemma KindNotAdded(version: int, f: Field, featureSkipped: bool, behaviorSkipped: bool)
    requires f.Of?
    ensures f !in Added(version, featureSkipped, behaviorSkipped)
  {
  }

  lemma KindKeyIff(n: Notation, version: int, p: Payload, fallback: bool, kind: Kind, s: string)
    ensures Of(kind, s) in Keys(n, version, p, fallback) <==> HasKind(n.names, version, kind, s)
  {
    KindListed(n.names, version, kind, s);
    KindNotAdded(version, Of(kind, s), HashSkipped(n, p, fallback, FeatureSnapshotHash),
                 HashSkipped(n, p, fallback, StrategyBehaviorHash));
  }

  lemma OtherKeyIff(n: Notation, version: int, p: Payload, fallback: bool, f: Field)
    requires !f.Of?
    ensures f in Keys(n, version, p, fallback) <==> HasField(n, p, fallback, version, f)
  {
    NoHashIff(n, p, FeatureSnapshotHash);
    NoHashIff(n, p, StrategyBehaviorHash);
    OtherListed(n.names, version, f, HashSkipped(n, p, fallback, FeatureSnapshotHash),
                HashSkipped(n, p, fallback, StrategyBehaviorHash));
  }

  lemma OutcomeKeys(n: Notation, p: Payload, fallback: bool)
    ensures Outcome(n, p, fallback).Keys == Keys(n, Version(n, p), p, fallback)
  {
  }

  /** A normalised decision has exactly the fields of its version, and the marks of hashes that were left out. */
  lemma FieldsIff(n: Notation, p: Payload, fallback: bool, d: Payload, f: Field)
    requires Normalized(n, p, fallback) == Some(d)
    ensures f in d <==> HasField(n, p, fallback, Version(n, p), f)
  {
    OutcomeKeys(n, p, fallback);
    if f.Of? {
      KindKeyIff(n, Version(n, p), p, fallback, f.kind, f.name);
    } else {
      OtherKeyIff(n, Version(n, p), p, fallback, f);
    }
  }

  // ----- Fields of a kind -----

  predicate KindMeans(n: Notation, kind: Kind, v: Value, r: Value) {
    match kind
    case Moment => if v == Null || v == Words("") then r == Null else r.Whole? && IsWhole(n, v, r.whole)
    case Permission => if v == Null then r == Null else r == Flag(Truthy(v))
    case Presence => r == Flag(Truthy(v))
    case Ratio => if v == Null || v == Words("") then r == Null else r.Number? && IsNumber(n, v, r.number)
    case Evidence => r == Stable(v)
    case Declared => r.Words? && if Truthy(v) then Prints(n, v, r.text) else r.text == ""
    case Plain => r.Words? && if v == Null then r.text == "" else Prints(n, v, r.text)
  }

  lemma KindIs(n: Notation, p: Payload, fallback: bool, d: Payload, kind: Kind, s: string)
    requires Normalized(n, p, fallback) == Some(d) && Of(kind, s) in d
    ensures KindMeans(n, kind, Get(p, Of(kind, s)), d[Of(kind, s)])
  {
    var v := Get(p, Of(kind, s));
    FieldsIff(n, p, fallback, d, Of(kind, s));
    assert d[Of(kind, s)] == KindValue(n, kind, v);
    match kind
    case Moment =>
      if Given(v) { WholeRead(n, v, WholeOf(n, v).value); }
    case Ratio =>
      if Given(v) { NumberRead(n, v, NumberOf(n, v).value); }
    case _ =>
  }

  /** The stable form keeps keys, places and everything that is not a tuple. */
  lemma StableIs(v: Value)
    ensures match v
      case List(s) =>
        && Stable(v).List? && |Stable(v).items| == |s|
        && forall i :: 0 <= i < |s| ==> Stable(v).items[i] == Stable(s[i])
      case Tuple(s) => Stable(v) == Stable(List(s))
      case Dict(m) =>
        && Stable(v).Dict? && Stable(v).fields.Keys == m.Keys
        && forall k :: k in m ==> Stable(v).fields[k] == Stable(m[k])
      case _ => Stable(v) == v
  {
  }

  // ----- The fields treated on their own -----

  /** Text or default. */
  predicate TextMeans(n: Notation, v: Value, default: string, t: string) {
    if Truthy(v) then Prints(n, v, t) else t == default
  }

  /** Trimmed and in upper case, of the first of two values that is given. */
  predicate SignalMeans(n: Notation, first: Value, second: Value, t: string) {
    if Truthy(first) then t == Upper(Strip(Shown(n, first)))
    else if Truthy(second) then t == Upper(Strip(Shown(n, second)))
    else t == ""
  }

  lemma EntryAt(n: Notation, p: Payload, fallback: bool, d: Payload, f: Field)
    requires Normalized(n, p, fallback) == Some(d) && HasField(n, p, fallback, Version(n, p), f)
    ensures f in d && d[f] == Entry(n, p, fallback, f)
  {
    FieldsIff(n, p, fallback, d, f);
    OutcomeAt(n, p, fallback, f);
  }

  /** Signals: the side is the given side or else the final signal, and the other way round. */
  lemma SignalsAre(n: Notation, p: Payload, fallback: bool, d: Payload)
    requires Normalized(n, p, fallback) == Some(d)
    ensures Side in d && d[Side].Words? && SignalMeans(n, Get(p, Side), Get(p, FinalSignal), d[Side].text)
    ensures FinalSignal in d && d[FinalSignal].Words?
        && SignalMeans(n, Get(p, FinalSignal), Get(p, Side), d[FinalSignal].text)
    ensures RawSignal in d && d[RawSignal].Words? && SignalMeans(n, Get(p, RawSignal), Null, d[RawSignal].text)
  {
    EntryAt(n, p, fallback, d, Side);
    EntryAt(n, p, fallback, d, FinalSignal);
    EntryAt(n, p, fallback, d, RawSignal);
    SignalEntriesAre(n, p, fallback);
  }

  lemma SignalEntriesAre(n: Notation, p: Payload, fallback: bool)
    ensures Entry(n, p, fallback, Side).Words?
        && SignalMeans(n, Get(p, Side), Get(p, FinalSignal), Entry(n, p, fallback, Side).text)
    ensures Entry(n, p, fallback, FinalSignal).Words?
    ensures SignalMeans(n, Get(p, FinalSignal), Get(p, Side), Entry(n, p, fallback, FinalSignal).text)
    ensures Entry(n, p, fallback, RawSignal).Words?
        && SignalMeans(n, Get(p, RawSignal), Null, Entry(n, p, fallback, RawSignal).text)
  {
    StripEmptyIff("");
    assert Upper("") == "";
    SignalRepeats(Shown(n, Get(p, Side)));
  }

  /** Contract and strategy texts, the block flag. */
  lemma TextsAre(n: Notation, p: Payload, fallback: bool, d: Payload)
    requires Normalized(n, p, fallback) == Some(d)
    ensures StrategyName in d && d[StrategyName].Words?
      && (if Get(p, StrategyName) == Null then d[StrategyName].text == ""
          else Prints(n, Get(p, StrategyName), d[StrategyName].text))
    ensures Blocked in d && d[Blocked] == Flag(Truthy(Get(p, Blocked)))
    ensures Version(n, p) < 2 ==>
      && StrategyContractVersion in d && d[StrategyContractVersion].Words?
      && TextMeans(n, Get(p, StrategyContractVersion), "sma_strategy_v1", d[StrategyContractVersion].text)
    ensures Version(n, p) >= 2 ==>
      && StrategyVersion in d && d[StrategyVersion].Words?
      && TextMeans(n, Get(p, StrategyVersion), "", d[StrategyVersion].text)
  {
    EntryAt(n, p, fallback, d, StrategyName);
    EntryAt(n, p, fallback, d, Blocked);
    if Version(n, p) < 2 {
      EntryAt(n, p, fallback, d, StrategyContractVersion);
    } else {
      EntryAt(n, p, fallback, d, StrategyVersion);
    }
  }

  /** The decision contract of version 2: its own text, or else that of the strategy contract. */
  lemma ContractIs(n: Notation, p: Payload, fallback: bool, d: Payload)
    requires Normalized(n, p, fallback) == Some(d) && Version(n, p) >= 2
    ensures
      var f, g := StrategyDecisionContractVersion, StrategyContractVersion;
      && f in d && d[f].Words?
      && if Truthy(Get(p, f)) then Prints(n, Get(p, f), d[f].text) else TextMeans(n, Get(p, g), "", d[f].text)
  {
    EntryAt(n, p, fallback, d, StrategyDecisionContractVersion);
  }

  /** The block filters: the items of a list, the characters of a text or the keys of an object, as texts. */
  lemma FiltersAre(n: Notation, p: Payload, fallback: bool, d: Payload)
    requires Normalized(n, p, fallback) == Some(d)
    ensures BlockedFilters in d && d[BlockedFilters].Tuple?
    ensures
      var v, items := Get(p, BlockedFilters), d[BlockedFilters].items;
      if !Truthy(v) then items == [] else
        match v
        case List(s) => |items| == |s| && forall i :: 0 <= i < |s| ==> items[i] == Words(Shown(n, s[i]))
        case Tuple(s) => |items| == |s| && forall i :: 0 <= i < |s| ==> items[i] == Words(Shown(n, s[i]))
        case Words(t) => |items| == |t| && forall i :: 0 <= i < |t| ==> items[i] == Words([t[i]])
        case Dict(m) => |items| == |n.keys(m)| && forall i :: 0 <= i < |items| ==> items[i] == Words(n.keys(m)[i])
        case _ => false
  {
    EntryAt(n, p, fallback, d, BlockedFilters);
  }

  /** The figures that the payload gives, as numbers, under their own names. */
  predicate IsFigures(n: Notation, p: Payload, v: Value) {
    && v.Dict?
    && (forall s <- v.fields :: s in n.names.ratios && Get(p, Of(Ratio, s)) != Null && Get(p, Of(Ratio, s)) != Words("")
          && v.fields[s].Number? && IsNumber(n, Get(p, Of(Ratio, s)), v.fields[s].number))
    && forall s <- n.names.ratios ::
         Get(p, Of(Ratio, s)) != Null && Get(p, Of(Ratio, s)) != Words("") ==> s in v.fields
  }

  lemma FiguresAre(n: Notation, p: Payload)
    requires RatiosReadable(n, p)
    ensures IsFigures(n, p, LegacyPayload(n, p))
  {
    var v := LegacyPayload(n, p);
    forall s <- v.fields ensures v.fields[s].Number? && IsNumber(n, Get(p, Of(Ratio, s)), v.fields[s].number) {
      NumberRead(n, Get(p, Of(Ratio, s)), NumberOf(n, Get(p, Of(Ratio, s))).value);
    }
  }

  /** The feature snapshot: the given one, or the given features, or the figures. The strategy's own payload:
      the given one, or the figures. */
  lemma PayloadsAre(n: Notation, p: Payload, fallback: bool, d: Payload)
    requires Normalized(n, p, fallback) == Some(d) && Version(n, p) >= 2
    ensures FeatureSnapshot in d &&
      if Get(p, FeatureSnapshot).Dict? then d[FeatureSnapshot] == Stable(Get(p, FeatureSnapshot))
      else if Get(p, Features).Dict? then d[FeatureSnapshot] == Stable(Get(p, Features))
      else IsFigures(n, p, d[FeatureSnapshot])
    ensures StrategySpecificPayload in d &&
      if Get(p, StrategySpecificPayload).Dict?
          then d[StrategySpecificPayload] == Stable(Get(p, StrategySpecificPayload))
      else IsFigures(n, p, d[StrategySpecificPayload])
  {
    EntryAt(n, p, fallback, d, FeatureSnapshot);
    EntryAt(n, p, fallback, d, StrategySpecificPayload);
    if NeedsLegacy(p) {
      FiguresAre(n, p);
    }
  }

  /** Diagnostics: a namespace that is given or else the strategy's name, and the given object or an empty one. */
  lemma DiagnosticsAre(n: Notation, p: Payload, fallback: bool, d: Payload)
    requires Normalized(n, p, fallback) == Some(d) && Version(n, p) >= 2
    ensures DiagnosticsNamespace in d && StrategyName in d &&
      if Truthy(Get(p, DiagnosticsNamespace))
      then d[DiagnosticsNamespace].Words? && Prints(n, Get(p, DiagnosticsNamespace), d[DiagnosticsNamespace].text)
      else d[DiagnosticsNamespace] == d[StrategyName]
    ensures Diagnostics in d &&
      d[Diagnostics] == if Get(p, Diagnostics).Dict? then Stable(Get(p, Diagnostics)) else Dict(map[])
  {
    EntryAt(n, p, fallback, d, DiagnosticsNamespace);
    EntryAt(n, p, fallback, d, StrategyName);
    EntryAt(n, p, fallback, d, Diagnostics);
  }

  /** The behaviour: the given object, or one of name, versions, upper-case signals and the decision's own
      strategy payload. */
  lemma BehaviorIs(n: Notation, p: Payload, fallback: bool, d: Payload)
    requires Normalized(n, p, fallback) == Some(d) && Version(n, p) >= 2
    ensures StrategyBehaviorPayload in d && StrategySpecificPayload in d && StrategyVersion in d
    ensures StrategyDecisionContractVersion in d
    ensures d[StrategyBehaviorPayload] ==
      if Get(p, StrategyBehaviorPayload).Dict? then Stable(Get(p, StrategyBehaviorPayload)) else
        var keys := n.names.behavior;
        Dict(map[
          keys.name := Words(if Truthy(Get(p, StrategyName)) then Shown(n, Get(p, StrategyName)) else ""),
          keys.version := d[StrategyVersion],
          keys.contract := d[StrategyDecisionContractVersion],
          keys.raw := Words(Upper(if Truthy(Get(p, RawSignal)) then Shown(n, Get(p, RawSignal)) else "")),
          keys.final := Words(Upper(
            if Truthy(Get(p, FinalSignal)) then Shown(n, Get(p, FinalSignal))
            else if Truthy(Get(p, Side)) then Shown(n, Get(p, Side)) else "")),
          keys.specific := d[StrategySpecificPayload]])
  {
    EntryAt(n, p, fallback, d, StrategyBehaviorPayload);
    EntryAt(n, p, fallback, d, StrategySpecificPayload);
    EntryAt(n, p, fallback, d, StrategyVersion);
    EntryAt(n, p, fallback, d, StrategyDecisionContractVersion);
  }

  // ----- What a hash is a hash of -----

  /** A given hash is kept, trimmed. A computed one is the digest of the payload that stands next to it in the
      same decision. One that may not be computed is a mark. */
  lemma FeatureHashIs(n: Notation, p: Payload, fallback: bool, d: Payload)
    requires Normalized(n, p, fallback) == Some(d) && Version(n, p) >= 2
    ensures FeatureSnapshotHash in d && FeatureSnapshot in d
    ensures d[FeatureSnapshotHash] ==
      if !NoHash(n, p, FeatureSnapshotHash) then Words(Strip(Shown(n, Get(p, FeatureSnapshotHash))))
      else if fallback then Words(n.digest(d[FeatureSnapshot])) else Words("feature_snapshot_hash_missing")
  {
    EntryAt(n, p, fallback, d, FeatureSnapshotHash);
    EntryAt(n, p, fallback, d, FeatureSnapshot);
    NoHashIff(n, p, FeatureSnapshotHash);
    SnapshotSettled(n, p);
    SettledUnchanged(SnapshotOf(n, p));
  }

  lemma BehaviorHashIs(n: Notation, p: Payload, fallback: bool, d: Payload)
    requires Normalized(n, p, fallback) == Some(d) && Version(n, p) >= 2
    ensures StrategyBehaviorHash in d && StrategyBehaviorPayload in d
    ensures d[StrategyBehaviorHash] ==
      if !NoHash(n, p, StrategyBehaviorHash) then Words(Strip(Shown(n, Get(p, StrategyBehaviorHash))))
      else if fallback then Words(n.digest(d[StrategyBehaviorPayload])) else Words("strategy_behavior_hash_missing")
  {
    EntryAt(n, p, fallback, d, StrategyBehaviorHash);
    EntryAt(n, p, fallback, d, StrategyBehaviorPayload);
    NoHashIff(n, p, StrategyBehaviorHash);
    BehaviorSettled(n, p);
    SettledUnchanged(BehaviorOf(n, p));
  }

  // ----- When normalisation raises -----

  ghost predicate ReadsWhole(n: Notation, v: Value) { v == Null || v == Words("") || exists k :: IsWhole(n, v, k) }

  ghost predicate ReadsNumber(n: Notation, v: Value) { v == Null || v == Words("") || exists x :: IsNumber(n, v, x) }

  lemma ReadsWholeIff(n: Notation, v: Value)
    ensures (Given(v) ==> WholeOf(n, v).Some?) <==> ReadsWhole(n, v)
  {
    if WholeOf(n, v).Some? {
      WholeRead(n, v, WholeOf(n, v).value);
    }
    if k :| IsWhole(n, v, k) {
      WholeRead(n, v, k);
    }
  }

  lemma ReadsNumberIff(n: Notation, v: Value)
    ensures (Given(v) ==> NumberOf(n, v).Some?) <==> ReadsNumber(n, v)
  {
    if NumberOf(n, v).Some? {
      NumberRead(n, v, NumberOf(n, v).value);
    }
    if x :| IsNumber(n, v, x) {
      NumberRead(n, v, x);
    }
  }

  /** A decision is normalised exactly when its version and times read as integers, its block filters can be
      iterated over, and the figures read as numbers where they are needed. */
  lemma NormalizedIff(n: Notation, p: Payload, fallback: bool)
    ensures Normalized(n, p, fallback).Some? <==>
      && ReadsWhole(n, Get(p, DecisionContractVersion))
      && (forall s :: s in n.names.moments ==> ReadsWhole(n, Get(p, Of(Moment, s))))
      && (var v := Get(p, BlockedFilters); Truthy(v) ==> v.List? || v.Tuple? || v.Words? || v.Dict?)
      && (|| (Version(n, p) >= 2 && Get(p, StrategySpecificPayload).Dict?
              && (Get(p, FeatureSnapshot).Dict? || Get(p, Features).Dict?))
          || forall s :: s in n.names.ratios ==> ReadsNumber(n, Get(p, Of(Ratio, s))))
  {
    ReadsWholeIff(n, Get(p, DecisionContractVersion));
    forall s | s in n.names.moments
      ensures (Given(Get(p, Of(Moment, s)))
          ==> WholeOf(n, Get(p, Of(Moment, s))).Some?) <==> ReadsWhole(n, Get(p, Of(Moment, s)))
    {
      ReadsWholeIff(n, Get(p, Of(Moment, s)));
    }
    forall s | s in n.names.ratios
      ensures (Given(Get(p, Of(Ratio, s)))
          ==> NumberOf(n, Get(p, Of(Ratio, s))).Some?) <==> ReadsNumber(n, Get(p, Of(Ratio, s)))
    {
      ReadsNumberIff(n, Get(p, Of(Ratio, s)));
    }
  }
}
