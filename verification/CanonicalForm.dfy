/** The decisions that normalisation leaves alone, described without normalising. */
module CanonicalForm {
  import opened Wrappers
  import opened Text
  import opened Canonical

  ghost predicate KindInForm(kind: Kind, v: Value) {
    match kind
    case Moment => v.Null? || v.Whole?
    case Permission => v.Null? || v.Flag?
    case Presence => v.Flag?
    case Ratio => v.Null? || v.Number?
    case Evidence => Settled(v)
    case Declared => v.Words?
    case Plain => v.Words?
  }

  predicate IsSignal(v: Value) {
    v.Words? && Stripped(v.text) && Upper(v.text) == v.text
  }

  predicate IsHash(v: Value) {
    v.Words? && v.text != "" && Stripped(v.text)
  }

  ghost predicate IsObject(v: Value) {
    v.Dict? && Settled(v)
  }

  /** What a field may hold by itself. */
  ghost predicate FieldInForm(f: Field, v: Value) {
    match f
    case Of(kind, _) => KindInForm(kind, v)
    case DecisionContractVersion => v.Whole? && v.whole != 0
    case StrategyContractVersion => v.Words? && v.text != ""
    case StrategyVersion | StrategyDecisionContractVersion | StrategyName | DiagnosticsNamespace => v.Words?
    case Side | RawSignal | FinalSignal => IsSignal(v)
    case Blocked => v.Flag?
    case BlockedFilters => v.Tuple? && forall item <- v.items :: item.Words?
    case FeatureSnapshotHash | StrategyBehaviorHash => IsHash(v)
    case FeatureSnapshot | StrategySpecificPayload | StrategyBehaviorPayload | Diagnostics => IsObject(v)
    case _ => false
  }

  /** The two places where two fields have to agree. */
  predicate FieldsAgree(d: Payload) {
    && (Get(d, Side) == Words("") <==> Get(d, FinalSignal) == Words(""))
    && (Get(d, DiagnosticsNamespace) == Words("") ==> Get(d, StrategyName) == Words(""))
  }

  /** A canonical decision: the fields of its version and no others, each of its type, and in agreement. */
  ghost predicate InForm(names: Names, d: Payload) {
    && Get(d, DecisionContractVersion).Whole?
    && (var version := Get(d, DecisionContractVersion).whole;
        d.Keys == Schema(names, version) + Added(version, false, false))
    && (forall f <- d :: FieldInForm(f, d[f]))
    && FieldsAgree(d)
  }

  lemma SignalFixedIff(s: string)
    ensures Signal(s) == s <==> Stripped(s) && Upper(s) == s
  {
    StripLaw(s);
    UpperStripped(Strip(s));
  }

  lemma FiltersFixedIff(n: Notation, d: Payload)
    requires FiltersOf(n, d).Some?
    ensures Tuple(Quoted(Filters(n, d))) == Get(d, BlockedFilters)
      <==> Get(d, BlockedFilters).Tuple? && forall item <- Get(d, BlockedFilters).items :: item.Words?
  {
    var v := Get(d, BlockedFilters);
    if v.Tuple? && v.items != [] {
      var texts := Filters(n, d);
      assert |Quoted(texts)| == |v.items|;
      if forall item <- v.items :: item.Words? {
        assert Quoted(texts) == v.items;
      } else {
        var i :| 0 <= i < |v.items| && !v.items[i].Words?;
        assert Quoted(texts)[i] != v.items[i];
      }
    }
  }

  lemma KindFixedIff(n: Notation, kind: Kind, v: Value)
    requires n.Valid()
    ensures KindValue(n, kind, v) == v <==> KindInForm(kind, v)
  {
    StableFixedIff(v);
  }

  lemma PayloadFixedIff(n: Notation, d: Payload, fallback: bool, f: Field)
    requires f == FeatureSnapshot || f == StrategySpecificPayload || f == StrategyBehaviorPayload || f == Diagnostics
    ensures Entry(n, d, fallback, f) == Get(d, f) <==> FieldInForm(f, Get(d, f))
  {
    SnapshotSettled(n, d);
    SpecificSettled(n, d);
    BehaviorSettled(n, d);
    StableFixedIff(Get(d, f));
  }

  lemma HashFixedIff(n: Notation, d: Payload, fallback: bool, f: Field, content: Value, missing: string)
    requires n.Valid() && missing != "" && Stripped(missing)
    ensures Words(HashOf(n, d, fallback, f, content, missing)) == Get(d, f) <==> IsHash(Get(d, f))
    ensures IsHash(Get(d, f)) ==> !HashSkipped(n, d, fallback, f)
  {
    StripLaw(ShownOr(n, Get(d, f), ""));
    StripLaw(missing);
  }

  lemma HashEntriesFixedIff(n: Notation, d: Payload, fallback: bool, f: Field)
    requires n.Valid() && (f == FeatureSnapshotHash || f == StrategyBehaviorHash)
    ensures Entry(n, d, fallback, f) == Get(d, f) <==> IsHash(Get(d, f))
    ensures IsHash(Get(d, f)) ==> !HashSkipped(n, d, fallback, f)
  {
    MarksPlain();
    if f == FeatureSnapshotHash {
      HashFixedIff(n, d, fallback, f, SnapshotOf(n, d), FEATURE_HASH_MISSING);
    } else {
      HashFixedIff(n, d, fallback, f, BehaviorOf(n, d), BEHAVIOR_HASH_MISSING);
    }
  }

  lemma SignalsFixedIff(n: Notation, d: Payload, fallback: bool)
    requires n.Valid()
    ensures Entry(n, d, fallback, Side) == Get(d, Side) && Entry(n, d, fallback, FinalSignal) == Get(d, FinalSignal)
      <==> && IsSignal(Get(d, Side)) && IsSignal(Get(d, FinalSignal))
           && (Get(d, Side) == Words("") <==> Get(d, FinalSignal) == Words(""))
  {
    SignalFixedIff(Shown(n, Get(d, Side)));
    SignalFixedIff(Shown(n, Get(d, FinalSignal)));
    SignalFixedIff("");
  }

  lemma RawSignalFixedIff(n: Notation, d: Payload, fallback: bool)
    requires n.Valid()
    ensures Entry(n, d, fallback, RawSignal) == Get(d, RawSignal) <==> IsSignal(Get(d, RawSignal))
  {
    SignalFixedIff(Shown(n, Get(d, RawSignal)));
    SignalFixedIff("");
  }

  lemma NamesFixedIff(n: Notation, d: Payload, fallback: bool)
    requires n.Valid()
    ensures Entry(n, d, fallback, StrategyName) == Get(d, StrategyName) <==> Get(d, StrategyName).Words?
    ensures Get(d, StrategyName).Words? ==>
      (Entry(n, d, fallback, DiagnosticsNamespace) == Get(d, DiagnosticsNamespace)
       <==> && Get(d, DiagnosticsNamespace).Words?
            && (Get(d, DiagnosticsNamespace) == Words("") ==> Get(d, StrategyName) == Words("")))
  {
  }

  lemma ContractFixedIff(n: Notation, d: Payload, fallback: bool, f: Field)
    requires n.Valid() && (f == StrategyContractVersion || f == StrategyVersion || f == Blocked)
    ensures Entry(n, d, fallback, f) == Get(d, f) <==> FieldInForm(f, Get(d, f))
  {
  }

  lemma DecisionContractFixedIff(n: Notation, d: Payload, fallback: bool)
    requires n.Valid() && Get(d, StrategyContractVersion) == Null
    ensures Entry(n, d, fallback, StrategyDecisionContractVersion) == Get(d, StrategyDecisionContractVersion)
      <==> Get(d, StrategyDecisionContractVersion).Words?
  {
  }

  lemma VersionFixedIff(n: Notation, d: Payload, fallback: bool)
    ensures Entry(n, d, fallback, DecisionContractVersion) == Get(d, DecisionContractVersion)
      <==> FieldInForm(DecisionContractVersion, Get(d, DecisionContractVersion))
    ensures FieldInForm(DecisionContractVersion, Get(d, DecisionContractVersion)) ==>
      VersionOf(n, d) == Some(Get(d, DecisionContractVersion).whole)
  {
  }

  /** Fields that are in order by themselves or not at all. */
  predicate Lonely(f: Field) {
    match f
    case Side | FinalSignal | DiagnosticsNamespace | StrategyDecisionContractVersion => false
    case Features | PositionAuthority | FeatureHashMissing | BehaviorHashMissing | FallbackSkipped => false
    case _ => true
  }

  lemma LonelyFixedIff(n: Notation, d: Payload, fallback: bool, f: Field)
    requires n.Valid() && FiltersOf(n, d).Some? && Lonely(f)
    ensures Entry(n, d, fallback, f) == Get(d, f) <==> FieldInForm(f, Get(d, f))
  {
    match f
    case Of(kind, _) => KindFixedIff(n, kind, Get(d, f));
    case DecisionContractVersion => VersionFixedIff(n, d, fallback);
    case StrategyName => NamesFixedIff(n, d, fallback);
    case RawSignal => RawSignalFixedIff(n, d, fallback);
    case BlockedFilters => FiltersFixedIff(n, d);
    case FeatureSnapshotHash | StrategyBehaviorHash => HashEntriesFixedIff(n, d, fallback, f);
    case StrategyContractVersion | StrategyVersion | Blocked => ContractFixedIff(n, d, fallback, f);
    case _ => PayloadFixedIff(n, d, fallback, f);
  }

  /** The fields of a version hold no mark and no foreign key. */
  lemma VersionHolds(names: Names, version: int, f: Field)
    requires f in Schema(names, version) + Added(version, false, false)
    ensures Lonely(f) || f == Side || f == FinalSignal
      || (version >= CONTRACT_VERSION && (f == DiagnosticsNamespace || f == StrategyDecisionContractVersion))
  {
  }

  lemma KeysWithHashes(n: Notation, version: int, d: Payload, fallback: bool)
    requires n.Valid()
    requires version >= CONTRACT_VERSION ==>
      IsHash(Get(d, FeatureSnapshotHash)) && IsHash(Get(d, StrategyBehaviorHash))
    ensures Keys(n, version, d, fallback) == Schema(n.names, version) + Added(version, false, false)
  {
    if version >= CONTRACT_VERSION {
      HashEntriesFixedIff(n, d, fallback, FeatureSnapshotHash);
      HashEntriesFixedIff(n, d, fallback, StrategyBehaviorHash);
    }
  }

  lemma LegacyAbsent(names: Names, version: int)
    requires version >= CONTRACT_VERSION
    ensures StrategyContractVersion !in Schema(names, version) + Added(version, false, false)
  {
  }

  lemma Present(names: Names, version: int)
    ensures DecisionContractVersion in Schema(names, version) && BlockedFilters in Schema(names, version)
    ensures Side in Schema(names, version) && FinalSignal in Schema(names, version)
    ensures StrategyName in Schema(names, version)
    ensures version >= CONTRACT_VERSION ==>
      FeatureSnapshotHash in Schema(names, version) && StrategyBehaviorHash in Schema(names, version)
  {
  }

  lemma FormFigures(n: Notation, d: Payload)
    requires forall f <- d :: FieldInForm(f, d[f])
    ensures MomentsReadable(n, d) && RatiosReadable(n, d)
  {
    forall kind, s | Given(Get(d, Of(kind, s))) ensures KindInForm(kind, Get(d, Of(kind, s))) {
      assert FieldInForm(Of(kind, s), d[Of(kind, s)]);
    }
  }

  lemma HeadReadable(n: Notation, d: Payload)
    requires FieldInForm(DecisionContractVersion, Get(d, DecisionContractVersion))
    requires FieldInForm(BlockedFilters, Get(d, BlockedFilters))
    ensures VersionOf(n, d).Some? && FiltersOf(n, d).Some?
  {
  }

  lemma FormField(names: Names, d: Payload, f: Field)
    requires InForm(names, d) && f in Schema(names, Get(d, DecisionContractVersion).whole)
    ensures FieldInForm(f, Get(d, f))
  {
  }

  lemma FormHead(names: Names, d: Payload)
    requires InForm(names, d)
    ensures FieldInForm(DecisionContractVersion, Get(d, DecisionContractVersion))
    ensures FieldInForm(BlockedFilters, Get(d, BlockedFilters))
  {
    Present(names, Get(d, DecisionContractVersion).whole);
    FormField(names, d, DecisionContractVersion);
    FormField(names, d, BlockedFilters);
  }

  lemma FormHashes(names: Names, d: Payload)
    requires InForm(names, d) && Get(d, DecisionContractVersion).whole >= CONTRACT_VERSION
    ensures IsHash(Get(d, FeatureSnapshotHash)) && IsHash(Get(d, StrategyBehaviorHash))
  {
    Present(names, Get(d, DecisionContractVersion).whole);
    FormField(names, d, FeatureSnapshotHash);
    FormField(names, d, StrategyBehaviorHash);
  }

  /** A decision in form is read without error. */
  lemma FormReadable(n: Notation, d: Payload)
    requires InForm(n.names, d)
    ensures Readable(n, d)
  {
    FormHead(n.names, d);
    HeadReadable(n, d);
    FormFigures(n, d);
  }

  lemma FormEntry(n: Notation, d: Payload, fallback: bool, f: Field)
    requires n.Valid() && InForm(n.names, d) && Readable(n, d) && f in d
    ensures Entry(n, d, fallback, f) == d[f]
  {
    var version := Get(d, DecisionContractVersion).whole;
    VersionHolds(n.names, version, f);
    assert FieldInForm(f, d[f]);
    if Lonely(f) {
      LonelyFixedIff(n, d, fallback, f);
    } else if f == Side || f == FinalSignal {
      Present(n.names, version);
      assert FieldInForm(Side, d[Side]) && FieldInForm(FinalSignal, d[FinalSignal]);
      SignalsFixedIff(n, d, fallback);
    } else {
      Present(n.names, version);
      LegacyAbsent(n.names, version);
      assert FieldInForm(StrategyName, d[StrategyName]);
      NamesFixedIff(n, d, fallback);
      DecisionContractFixedIff(n, d, fallback);
    }
  }

  lemma FormKeys(n: Notation, d: Payload, fallback: bool)
    requires n.Valid() && InForm(n.names, d)
    ensures Keys(n, Version(n, d), d, fallback) == d.Keys
  {
    FormHead(n.names, d);
    VersionFixedIff(n, d, fallback);
    if Version(n, d) >= CONTRACT_VERSION {
      FormHashes(n.names, d);
    }
    KeysWithHashes(n, Version(n, d), d, fallback);
  }

  lemma SameEntries(n: Notation, d: Payload, fallback: bool)
    requires Keys(n, Version(n, d), d, fallback) == d.Keys
    requires forall f | f in d :: Entry(n, d, fallback, f) == d[f]
    ensures Outcome(n, d, fallback) == d
  {
  }

  lemma FormFixed(n: Notation, d: Payload, fallback: bool)
    requires n.Valid() && InForm(n.names, d)
    ensures Normalized(n, d, fallback) == Some(d)
  {
    FormReadable(n, d);
    FormKeys(n, d, fallback);
    forall f | f in d ensures Entry(n, d, fallback, f) == d[f] {
      FormEntry(n, d, fallback, f);
    }
    SameEntries(n, d, fallback);
  }

  /** Everything that the pass leaves alone, read off the fields. */
  lemma FixedEntries(n: Notation, d: Payload, fallback: bool)
    requires Normalized(n, d, fallback) == Some(d)
    ensures d.Keys == Keys(n, Version(n, d), d, fallback)
    ensures forall f | f in d :: Entry(n, d, fallback, f) == Get(d, f)
  {
    assert Outcome(n, d, fallback) == d;
  }

  lemma FixedKeys(n: Notation, d: Payload, fallback: bool)
    requires n.Valid() && Normalized(n, d, fallback) == Some(d)
    ensures FieldInForm(DecisionContractVersion, Get(d, DecisionContractVersion))
    ensures Version(n, d) == Get(d, DecisionContractVersion).whole
    ensures d.Keys == Schema(n.names, Version(n, d)) + Added(Version(n, d), false, false)
  {
    FixedEntries(n, d, fallback);
    Present(n.names, Version(n, d));
    VersionFixedIff(n, d, fallback);
    HashEntriesFixedIff(n, d, fallback, FeatureSnapshotHash);
    HashEntriesFixedIff(n, d, fallback, StrategyBehaviorHash);
    KeysWithHashes(n, Version(n, d), d, fallback);
  }

  lemma FixedField(n: Notation, d: Payload, fallback: bool, f: Field)
    requires n.Valid() && Normalized(n, d, fallback) == Some(d) && f in d
    ensures FieldInForm(f, d[f])
  {
    var version := Version(n, d);
    FixedEntries(n, d, fallback);
    FixedKeys(n, d, fallback);
    VersionHolds(n.names, version, f);
    Present(n.names, version);
    if Lonely(f) {
      LonelyFixedIff(n, d, fallback, f);
    } else if f == Side || f == FinalSignal {
      SignalsFixedIff(n, d, fallback);
    } else {
      LegacyAbsent(n.names, version);
      NamesFixedIff(n, d, fallback);
      DecisionContractFixedIff(n, d, fallback);
    }
  }

  lemma FixedAgrees(n: Notation, d: Payload, fallback: bool)
    requires n.Valid() && Normalized(n, d, fallback) == Some(d)
    ensures FieldsAgree(d)
  {
    FixedEntries(n, d, fallback);
    FixedKeys(n, d, fallback);
    Present(n.names, Version(n, d));
    SignalsFixedIff(n, d, fallback);
    NamesFixedIff(n, d, fallback);
  }

  /** Normalisation leaves a decision alone exactly when it is in canonical form. */
  lemma FixedIffInForm(n: Notation, d: Payload, fallback: bool)
    requires n.Valid()
    ensures Normalized(n, d, fallback) == Some(d) <==> InForm(n.names, d)
  {
    if InForm(n.names, d) {
      FormFixed(n, d, fallback);
    }
    if Normalized(n, d, fallback) == Some(d) {
      FixedKeys(n, d, fallback);
      FixedAgrees(n, d, fallback);
      forall f | f in d ensures FieldInForm(f, d[f]) {
        FixedField(n, d, fallback, f);
      }
    }
  }
}
