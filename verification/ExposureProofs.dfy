/** Resolving a stored context gives the snapshot it was stored from. */
module ExposureProofs {
  import opened Wrappers
  import opened Rounding
  import opened Text
  import opened Exposure

  // ----- What the stored context holds -----

  lemma StoredReadsNormalized(c: Context, s: Snapshot, f: Field)
    ensures Get(Stored(c, s).normalized, f) == Or(StoredNormalized(s, f), Get(c.normalized, f))
  {
  }

  lemma StoredReadsTop(c: Context, s: Snapshot, f: Field)
    ensures Get(Stored(c, s).top, f) == Or(StoredTop(s, f), Get(c.top, f))
  {
  }

  lemma StoredReads(c: Context, s: Snapshot, f: Field)
    ensures Get(Stored(c, s).normalized, f) == Or(StoredNormalized(s, f), Get(c.normalized, f))
    ensures Get(Stored(c, s).top, f) == Or(StoredTop(s, f), Get(c.top, f))
  {
    StoredReadsNormalized(c, s, f);
    StoredReadsTop(c, s, f);
  }

  /** The normalised exposure of `after` carries every field that is resolved from it. */
  predicate CarriesPosition(after: Context, s: Snapshot) {
    && Get(after.normalized, RawQtyOpen) == Number(s.rawQtyOpen)
    && Get(after.normalized, RawTotalAssetQty) == Number(s.rawTotalAssetQty)
    && Get(after.normalized, DustTrackingQty) == Number(s.dustTrackingQty)
    && Get(after.normalized, DustTrackingLotCount) == Number(s.dustTrackingLotCount as real)
    && Get(after.normalized, EntryAllowed) == Flag(s.entryAllowed)
    && Get(after.normalized, EffectiveFlat) == Flag(s.effectiveFlat)
    && Get(after.normalized, HasExecutableExposure) == Flag(s.hasExecutableExposure)
    && Get(after.normalized, HasAnyPositionResidue) == Flag(s.hasAnyPositionResidue)
    && Get(after.normalized, HasNonExecutableResidue) == Flag(s.hasNonExecutableResidue)
    && Get(after.normalized, HasDustOnlyRemainder) == Flag(s.hasDustOnlyRemainder)
    && Get(after.normalized, NormalizedExposureQty) == Number(s.normalizedExposureQty)
    && Get(after.normalized, NormalizedExposureActive) == Flag(s.normalizedExposureActive)
  }

  predicate CarriesAuthority(after: Context, s: Snapshot) {
    && Get(after.normalized, OpenExposureQty) == Number(s.openExposureQty)
    && Get(after.normalized, ReservedExitQty) == Number(s.reservedExitQty)
    && Get(after.normalized, OpenLotCount) == Number(s.openLotCount as real)
    && Get(after.normalized, ReservedExitLotCount) == Number(s.reservedExitLotCount as real)
    && Get(after.normalized, SellableExecutableLotCount) == Number(s.sellableExecutableLotCount as real)
    && Get(after.normalized, SellableExecutableQty) == Number(s.sellableExecutableQty)
    && Get(after.normalized, ExitAllowed) == Flag(s.exitAllowed)
    && Get(after.normalized, ExitBlockReason) == Words(s.exitBlockReason)
    && Get(after.normalized, EntryBlockReason) == Words(s.entryBlockReason)
  }

  predicate CarriesRecovery(after: Context, s: Snapshot) {
    && Get(after.normalized, UnresolvedOrderCount) == Number(s.unresolvedOrderCount as real)
    && Get(after.normalized, RecoveryRequiredCount) == Number(s.recoveryRequiredCount as real)
    && Get(after.normalized, RecoveryBlocked) == Flag(s.recoveryBlocked)
    && Get(after.normalized, RecoveryBlockReason) == Words(s.recoveryBlockReason)
  }

  predicate CarriesTop(after: Context, s: Snapshot) {
    && Get(after.top, DustClassification) == Words(s.dustClassification)
    && Get(after.top, RawTotalAssetQty) == Number(s.rawTotalAssetQty)
    && Get(after.top, SellQtyBoundaryKind) == Words(s.sellQtyBoundaryKind)
  }

  predicate Carries(c: Context, after: Context, s: Snapshot) {
    && after.state == c.state
    && CarriesPosition(after, s) && CarriesAuthority(after, s) && CarriesRecovery(after, s) && CarriesTop(after, s)
    && Get(after.normalized, SemanticBasis) == Get(c.normalized, SemanticBasis)
  }

  lemma StoredPositionQuantities(s: Snapshot)
    ensures StoredNormalized(s, RawQtyOpen) == Number(s.rawQtyOpen)
    ensures StoredNormalized(s, RawTotalAssetQty) == Number(s.rawTotalAssetQty)
    ensures StoredNormalized(s, DustTrackingQty) == Number(s.dustTrackingQty)
    ensures StoredNormalized(s, DustTrackingLotCount) == Number(s.dustTrackingLotCount as real)
    ensures StoredNormalized(s, EntryAllowed) == Flag(s.entryAllowed)
    ensures StoredNormalized(s, EffectiveFlat) == Flag(s.effectiveFlat)
  {
  }

  lemma StoredPositionFlags(s: Snapshot)
    ensures StoredNormalized(s, HasExecutableExposure) == Flag(s.hasExecutableExposure)
    ensures StoredNormalized(s, HasAnyPositionResidue) == Flag(s.hasAnyPositionResidue)
    ensures StoredNormalized(s, HasNonExecutableResidue) == Flag(s.hasNonExecutableResidue)
    ensures StoredNormalized(s, HasDustOnlyRemainder) == Flag(s.hasDustOnlyRemainder)
    ensures StoredNormalized(s, NormalizedExposureQty) == Number(s.normalizedExposureQty)
    ensures StoredNormalized(s, NormalizedExposureActive) == Flag(s.normalizedExposureActive)
  {
  }

  lemma StoredAuthority(s: Snapshot)
    ensures StoredNormalized(s, OpenExposureQty) == Number(s.openExposureQty)
    ensures StoredNormalized(s, ReservedExitQty) == Number(s.reservedExitQty)
    ensures StoredNormalized(s, OpenLotCount) == Number(s.openLotCount as real)
    ensures StoredNormalized(s, ReservedExitLotCount) == Number(s.reservedExitLotCount as real)
    ensures StoredNormalized(s, SellableExecutableLotCount) == Number(s.sellableExecutableLotCount as real)
  {
  }

  lemma StoredExit(s: Snapshot)
    ensures StoredNormalized(s, SellableExecutableQty) == Number(s.sellableExecutableQty)
    ensures StoredNormalized(s, ExitAllowed) == Flag(s.exitAllowed)
    ensures StoredNormalized(s, ExitBlockReason) == Words(s.exitBlockReason)
    ensures StoredNormalized(s, EntryBlockReason) == Words(s.entryBlockReason)
  {
  }

  lemma StoredRecovery(s: Snapshot)
    ensures StoredNormalized(s, UnresolvedOrderCount) == Number(s.unresolvedOrderCount as real)
    ensures StoredNormalized(s, RecoveryRequiredCount) == Number(s.recoveryRequiredCount as real)
    ensures StoredNormalized(s, RecoveryBlocked) == Flag(s.recoveryBlocked)
    ensures StoredNormalized(s, RecoveryBlockReason) == Words(s.recoveryBlockReason)
  {
  }

  lemma StoredPayload(s: Snapshot)
    ensures StoredNormalized(s, SemanticBasis) == Null
    ensures StoredTop(s, DustClassification) == Words(s.dustClassification)
    ensures StoredTop(s, RawTotalAssetQty) == Number(s.rawTotalAssetQty)
    ensures StoredTop(s, SellQtyBoundaryKind) == Words(s.sellQtyBoundaryKind)
  {
  }

  lemma CarriesFromReads(c: Context, s: Snapshot, after: Context)
    requires forall f :: Get(after.normalized, f) == Or(StoredNormalized(s, f), Get(c.normalized, f))
    requires forall f :: Get(after.top, f) == Or(StoredTop(s, f), Get(c.top, f))
    ensures CarriesPosition(after, s) && CarriesAuthority(after, s) && CarriesRecovery(after, s) && CarriesTop(after, s)
    ensures Get(after.normalized, SemanticBasis) == Get(c.normalized, SemanticBasis)
  {
    StoredPositionQuantities(s);
    StoredPositionFlags(s);
    StoredAuthority(s);
    StoredExit(s);
    StoredRecovery(s);
    StoredPayload(s);
  }

  lemma StoredCarries(c: Context, s: Snapshot)
    ensures Carries(c, Stored(c, s), s)
  {
    forall f
      ensures Get(Stored(c, s).normalized, f) == Or(StoredNormalized(s, f), Get(c.normalized, f))
      ensures Get(Stored(c, s).top, f) == Or(StoredTop(s, f), Get(c.top, f))
    {
      StoredReads(c, s, f);
    }
    CarriesFromReads(c, s, Stored(c, s));
  }

  // ----- Groups of fields resolve to what is carried -----

  lemma RawQuantitiesKept(n: Notation, c: Context, after: Context, s: Snapshot)
    requires after.state == c.state && CarriesPosition(after, s) && CarriesTop(after, s)
    requires s.rawQtyOpen == ResolveRawQtyOpen(n, c) && s.rawTotalAssetQty == ResolveRawTotal(n, c)
    requires s.dustTrackingQty == ResolveDustTrackingQty(n, c)
    requires s.dustTrackingLotCount == CountOf(n, StateFirst(c, DustTrackingLotCount))
    ensures ResolveDustClassification(n, after) == s.dustClassification
    ensures ResolveRawQtyOpen(n, after) == s.rawQtyOpen
    ensures ResolveRawTotal(n, after) == s.rawTotalAssetQty
    ensures ResolveDustTrackingQty(n, after) == s.dustTrackingQty
    ensures CountOf(n, StateFirst(after, DustTrackingLotCount)) == s.dustTrackingLotCount
    ensures DiagnosticRawTotal(n, after).Some?
  {
  }

  /** The stored quantities survive the fallbacks a second time, whatever the diagnostic total. */
  lemma SellAuthorityKept(n: Notation, c: Context, after: Context, s: Snapshot, d: real, later: real)
    requires after.state == c.state && CarriesAuthority(after, s)
    requires Get(after.normalized, SemanticBasis) == Get(c.normalized, SemanticBasis)
    requires
      var a := ResolveSellAuthority(n, c, d);
      && a.openExposureQty == s.openExposureQty && a.openLotCount == s.openLotCount
      && a.reservedExitQty == s.reservedExitQty && a.reservedExitLotCount == s.reservedExitLotCount
      && a.sellableLotCount == s.sellableExecutableLotCount && a.sellableQty == s.sellableExecutableQty
    ensures ResolveSellAuthority(n, after, later) == ResolveSellAuthority(n, c, d)
  {
    assert after.normalized != map[];
  }

  lemma EntryGateKept(n: Notation, c: Context, after: Context, s: Snapshot)
    requires after.state == c.state && CarriesPosition(after, s)
    requires ResolveRawTotal(n, after) == ResolveRawTotal(n, c)
    requires s.entryAllowed == ResolveEntryAllowed(n, c) && s.effectiveFlat == ResolveEffectiveFlat(n, c)
    ensures ResolveEntryAllowed(n, after) == s.entryAllowed
    ensures ResolveEffectiveFlat(n, after) == s.effectiveFlat
  {
  }

  lemma PositionFlagKept(c: Context, after: Context, f: Field, default: bool)
    requires after.state == c.state
    requires Get(after.normalized, f) == Flag(BoolOr(StateFirst(c, f), default))
    ensures forall later :: BoolOr(StateFirst(after, f), later) == BoolOr(StateFirst(c, f), default)
  {
  }

  lemma RecoveryKept(n: Notation, after: Context, s: Snapshot, later: bool, derived: string)
    requires CarriesRecovery(after, s)
    ensures ResolveUnresolvedOrders(n, after) == s.unresolvedOrderCount
    ensures CountOf(n, NormalizedFirst(after, RecoveryRequiredCount)) == s.recoveryRequiredCount
    ensures BoolOr(NormalizedFirst(after, RecoveryBlocked), later) == s.recoveryBlocked
    ensures ResolveRecoveryBlockReason(n, after, derived) == s.recoveryBlockReason
  {
  }

  lemma ExposureKept(n: Notation, c: Context, after: Context, s: Snapshot, a: SellAuthority)
    requires after.state == c.state && CarriesPosition(after, s)
    requires
      var (qty, source) := ResolveExposureQty(n, c, a.openExposureQty, s.hasExecutableExposure);
      s.normalizedExposureQty == qty && s.normalizedExposureActive == ResolveExposureActive(c, a, source)
    ensures ResolveExposureQty(n, after, a.openExposureQty, s.hasExecutableExposure)
            == (s.normalizedExposureQty, Read(NormalizedExposureQty))
    ensures ResolveExposureActive(after, a, Read(NormalizedExposureQty)) == s.normalizedExposureActive
  {
  }

  /** The derived reasons carry no surrounding space. */
  lemma DerivedReasonStripped(reason: string)
    requires reason in [DUST_ONLY_REMAINDER, POSITION_HAS_EXECUTABLE_EXPOSURE, LEGACY_LOT_METADATA_MISSING, NO_REASON]
    ensures Strip(reason) == reason
  {
    OwnReasonsStripped();
    StripLaw(reason);
  }

  lemma OwnReasonsStripped()
    ensures Stripped(DUST_ONLY_REMAINDER) && Stripped(POSITION_HAS_EXECUTABLE_EXPOSURE)
    ensures Stripped(LEGACY_LOT_METADATA_MISSING) && Stripped(NO_REASON)
  {
  }

  lemma EntryBlockReasonKept(n: Notation, c: Context, after: Context, allowed: bool, dustOnly: bool, executable: bool,
      residue: bool)
    requires Get(after.normalized, EntryBlockReason)
             == Words(ResolveEntryBlockReason(n, c, allowed, dustOnly, executable, residue))
    ensures ResolveEntryBlockReason(n, after, allowed, dustOnly, executable, residue)
            == ResolveEntryBlockReason(n, c, allowed, dustOnly, executable, residue)
  {
    StripLaw(AsText(n, Get(c.normalized, EntryBlockReason), ""));
    var reason := ResolveEntryBlockReason(n, c, allowed, dustOnly, executable, residue);
    if reason in [DUST_ONLY_REMAINDER, POSITION_HAS_EXECUTABLE_EXPOSURE, LEGACY_LOT_METADATA_MISSING, NO_REASON] {
      DerivedReasonStripped(reason);
    }
  }

  lemma BoundaryKindKept(n: Notation, c: Context, after: Context, s: Snapshot)
    requires CarriesTop(after, s) && s.sellQtyBoundaryKind == ResolveBoundaryKind(n, c)
    ensures ResolveBoundaryKind(n, after) == s.sellQtyBoundaryKind
  {
  }

  // ----- The theorem -----

  predicate ResolvesAuthority(n: Notation, c: Context, d: real, s: Snapshot) {
    var a := ResolveSellAuthority(n, c, d);
    var exit := DerivedExit(s.rawTotalAssetQty, s.dustTrackingQty, a);
    && s.openExposureQty == s.positionQty == s.sellOpenExposureQty == a.openExposureQty
    && s.openLotCount == a.openLotCount
    && s.reservedExitQty == a.reservedExitQty && s.reservedExitLotCount == a.reservedExitLotCount
    && s.sellableExecutableLotCount == s.sellSubmitLotCount == a.sellableLotCount
    && s.sellableExecutableQty == s.sellQtyBasisQty == a.sellableQty
    && s.exitAllowed == BoolOr(Get(c.normalized, ExitAllowed), exit.0)
    && s.exitBlockReason == AsText(n, Get(c.normalized, ExitBlockReason), exit.1)
    && s.sellQtyBoundaryKind == ResolveBoundaryKind(n, c)
  }

  predicate ResolvesPosition(n: Notation, c: Context, s: Snapshot) {
    && s.dustClassification == ResolveDustClassification(n, c)
    && s.rawQtyOpen == ResolveRawQtyOpen(n, c) && s.rawTotalAssetQty == ResolveRawTotal(n, c)
    && s.dustTrackingQty == s.sellDustTrackingQty == ResolveDustTrackingQty(n, c)
    && s.dustTrackingLotCount == CountOf(n, StateFirst(c, DustTrackingLotCount))
    && s.entryAllowed == ResolveEntryAllowed(n, c)
    && s.effectiveFlat == s.entryGateEffectiveFlat == ResolveEffectiveFlat(n, c)
  }

  predicate ResolvesFlags(c: Context, a: SellAuthority, s: Snapshot) {
    && s.hasExecutableExposure
       == BoolOr(StateFirst(c, HasExecutableExposure), a.openLotCount > 0 && a.sellableQty > EPS)
    && s.hasAnyPositionResidue == BoolOr(StateFirst(c, HasAnyPositionResidue), s.rawTotalAssetQty > EPS)
    && s.hasDustOnlyRemainder
       == BoolOr(StateFirst(c, HasDustOnlyRemainder), s.dustTrackingQty > EPS && a.openLotCount <= 0)
    && s.hasNonExecutableResidue
       == BoolOr(StateFirst(c, HasNonExecutableResidue), s.hasAnyPositionResidue && !s.hasExecutableExposure)
  }

  predicate ResolvesRest(n: Notation, c: Context, a: SellAuthority, s: Snapshot) {
    var (qty, source) := ResolveExposureQty(n, c, a.openExposureQty, s.hasExecutableExposure);
    && s.normalizedExposureQty == s.submitPayloadQty == s.sellNormalizedExposureQty == qty
    && s.normalizedExposureActive == ResolveExposureActive(c, a, source)
    && s.unresolvedOrderCount == ResolveUnresolvedOrders(n, c)
    && s.recoveryRequiredCount == CountOf(n, NormalizedFirst(c, RecoveryRequiredCount))
    && s.recoveryBlocked
       == BoolOr(NormalizedFirst(c, RecoveryBlocked), s.unresolvedOrderCount > 0 || s.recoveryRequiredCount > 0)
    && s.recoveryBlockReason
       == ResolveRecoveryBlockReason(n, c, RecoveryReason(s.unresolvedOrderCount, s.recoveryRequiredCount))
    && s.entryBlockReason == ResolveEntryBlockReason(
         n, c, s.entryAllowed, s.hasDustOnlyRemainder, s.hasExecutableExposure, s.hasAnyPositionResidue)
    && s.holdingAuthorityState
       == HoldingState(a, s.hasExecutableExposure, s.hasDustOnlyRemainder, s.hasAnyPositionResidue)
  }

  predicate ResolvesTo(n: Notation, c: Context, d: real, s: Snapshot) {
    && ResolvesAuthority(n, c, d, s)
    && ResolvesPosition(n, c, s)
    && ResolvesFlags(c, ResolveSellAuthority(n, c, d), s)
    && ResolvesRest(n, c, ResolveSellAuthority(n, c, d), s)
  }

  lemma SnapshotResolvesAuthority(n: Notation, c: Context, d: real)
    ensures ResolvesAuthority(n, c, d, SnapshotOf(n, c, d))
  {
  }

  lemma SnapshotResolvesPosition(n: Notation, c: Context, d: real)
    ensures ResolvesPosition(n, c, SnapshotOf(n, c, d))
    ensures ResolvesFlags(c, ResolveSellAuthority(n, c, d), SnapshotOf(n, c, d))
  {
  }

  lemma SnapshotResolvesRest(n: Notation, c: Context, d: real)
    ensures ResolvesRest(n, c, ResolveSellAuthority(n, c, d), SnapshotOf(n, c, d))
  {
  }

  lemma ResolvesToUnique(n: Notation, c: Context, d: real, s: Snapshot)
    requires ResolvesTo(n, c, d, s)
    ensures s == SnapshotOf(n, c, d)
  {
  }

  lemma PositionKept(n: Notation, c: Context, after: Context, s: Snapshot)
    requires Carries(c, after, s) && ResolvesPosition(n, c, s)
    ensures ResolvesPosition(n, after, s) && DiagnosticRawTotal(n, after).Some?
  {
    RawQuantitiesKept(n, c, after, s);
    EntryGateKept(n, c, after, s);
  }

  lemma PositionFlagsKept(c: Context, after: Context, a: SellAuthority, s: Snapshot)
    requires Carries(c, after, s) && ResolvesFlags(c, a, s)
    ensures ResolvesFlags(after, a, s)
  {
    PositionFlagKept(c, after, HasExecutableExposure, a.openLotCount > 0 && a.sellableQty > EPS);
    PositionFlagKept(c, after, HasAnyPositionResidue, s.rawTotalAssetQty > EPS);
    PositionFlagKept(c, after, HasDustOnlyRemainder, s.dustTrackingQty > EPS && a.openLotCount <= 0);
    PositionFlagKept(c, after, HasNonExecutableResidue, s.hasAnyPositionResidue && !s.hasExecutableExposure);
  }

  lemma RestKept(n: Notation, c: Context, after: Context, a: SellAuthority, s: Snapshot)
    requires Carries(c, after, s) && ResolvesRest(n, c, a, s)
    ensures ResolvesRest(n, after, a, s)
  {
    RecoveryKept(n, after, s, s.unresolvedOrderCount > 0 || s.recoveryRequiredCount > 0,
                 RecoveryReason(s.unresolvedOrderCount, s.recoveryRequiredCount));
    ExposureKept(n, c, after, s, a);
    EntryBlockReasonKept(n, c, after, s.entryAllowed, s.hasDustOnlyRemainder, s.hasExecutableExposure,
        s.hasAnyPositionResidue);
  }

  lemma AuthorityKept(n: Notation, c: Context, after: Context, d: real, later: real, s: Snapshot)
    requires Carries(c, after, s) && ResolvesAuthority(n, c, d, s)
    ensures ResolvesAuthority(n, after, later, s)
    ensures ResolveSellAuthority(n, after, later) == ResolveSellAuthority(n, c, d)
  {
    SellAuthorityKept(n, c, after, s, d, later);
    BoundaryKindKept(n, c, after, s);
  }

  /** Whatever combination of layers and fields is present, the snapshot resolved from the stored
      context equals the snapshot resolved from the original context, in all 36 fields. */
  lemma StoredSnapshotKept(n: Notation, c: Context)
    requires Resolve(n, c).Some?
    ensures Normalize(n, c).Some?
    ensures Resolve(n, Normalize(n, c).value) == Resolve(n, c)
  {
    var d := DiagnosticRawTotal(n, c).value;
    var s := SnapshotOf(n, c, d);
    var after := Stored(c, s);
    var a := ResolveSellAuthority(n, c, d);
    StoredCarries(c, s);
    SnapshotResolvesAuthority(n, c, d);
    SnapshotResolvesPosition(n, c, d);
    SnapshotResolvesRest(n, c, d);
    PositionKept(n, c, after, s);
    PositionFlagsKept(c, after, a, s);
    var later := DiagnosticRawTotal(n, after).value;
    AuthorityKept(n, c, after, d, later, s);
    RestKept(n, c, after, a, s);
    ResolvesToUnique(n, after, later, s);
  }

  /** The context after storing and reloading it `k` times. */
  function StoredTimes(n: Notation, c: Context, k: nat): Option<Context> {
    if k == 0 then Some(c) else
      match StoredTimes(n, c, k - 1) case None => None case Some(b) => Normalize(n, b)
  }

  lemma {:induction false} SnapshotFixedForever(n: Notation, c: Context, k: nat)
    requires Resolve(n, c).Some?
    ensures StoredTimes(n, c, k).Some?
    ensures Resolve(n, StoredTimes(n, c, k).value) == Resolve(n, c)
  {
    if k > 0 {
      SnapshotFixedForever(n, c, k - 1);
      StoredSnapshotKept(n, StoredTimes(n, c, k - 1).value);
    }
  }

  /** Without a normalised exposure no other field gives sell authority, and storing and reloading
      the context, any number of times, does not create any. */
  lemma NoAuthorityWithoutExposure(n: Notation, c: Context, k: nat)
    requires c.normalized == map[] && Resolve(n, c).Some?
    ensures StoredTimes(n, c, k).Some? && Resolve(n, StoredTimes(n, c, k).value).Some?
    ensures
      var s := Resolve(n, StoredTimes(n, c, k).value).value;
      && s.sellableExecutableLotCount == s.sellSubmitLotCount == s.openLotCount == 0
      && s.sellableExecutableQty == s.sellQtyBasisQty == s.openExposureQty == 0.0
      && !s.exitAllowed
  {
    SnapshotFixedForever(n, c, k);
  }
}
