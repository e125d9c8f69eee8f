/** Position exposure: one snapshot resolved from four layers of optional fields, written back into
    the stored decision context and resolved again when that context is loaded. */
module Exposure {
  import opened Wrappers
  import opened Rounding
  import opened Text

  /** The field names that the resolution reads or writes. */
  datatype Field =
    | DustClassification | DustState | EntryAllowed | EffectiveFlat | EffectiveFlatDueToHarmlessDust
    | DustTreatAsFlat | EntryGateEffectiveFlat | HarmlessDustEffectiveFlat | HoldingAuthorityState
    | RawQtyOpen | RawTotalAssetQty | PositionQty | SubmitPayloadQty | SubmitLotCount | PositionStateLotCount
    | NormalizedExposureActive | NormalizedExposureQty
    | HasExecutableExposure | HasAnyPositionResidue | HasNonExecutableResidue | HasDustOnlyRemainder
    | RecoveryBlocked | RecoveryBlockReason | UnresolvedOrderCount | UnresolvedOpenOrderCount | RecoveryRequiredCount
    | OpenExposureQty | DustTrackingQty | OpenLotCount | DustTrackingLotCount | ReservedExitLotCount
    | SellableExecutableLotCount | ReservedExitQty | SellableExecutableQty | SellSubmitLotCount
    | ExitAllowed | ExitBlockReason | EntryBlockReason | SellQtyBasisQty | SellQtyBoundaryKind
    | SellNormalizedExposureQty | SellOpenExposureQty | SellDustTrackingQty | SemanticBasis

  /** A JSON scalar. */
  datatype Value = Null | Flag(flag: bool) | Number(number: real) | Words(text: string)

  type Dict = map<Field, Value>

  /** The payload itself, its position gate, its position state, and the normalised exposure inside
      the position state. A layer that is missing or not an object is empty. */
  datatype Context = Context(top: Dict, gate: Dict, state: Dict, normalized: Dict)

  /** How numbers are printed and parsed; nothing below depends on the choice. */
  datatype Notation = Notation(show: real -> string, parse: string -> Option<real>)

  datatype Snapshot = Snapshot(
    dustClassification: string,
    entryAllowed: bool,
    entryBlockReason: string,
    effectiveFlat: bool,
    entryGateEffectiveFlat: bool,
    holdingAuthorityState: string,
    rawQtyOpen: real,
    rawTotalAssetQty: real,
    positionQty: real,
    submitPayloadQty: real,
    normalizedExposureActive: bool,
    normalizedExposureQty: real,
    hasExecutableExposure: bool,
    hasAnyPositionResidue: bool,
    hasNonExecutableResidue: bool,
    hasDustOnlyRemainder: bool,
    recoveryBlocked: bool,
    recoveryBlockReason: string,
    unresolvedOrderCount: nat,
    recoveryRequiredCount: nat,
    openExposureQty: real,
    dustTrackingQty: real,
    openLotCount: nat,
    dustTrackingLotCount: nat,
    reservedExitLotCount: nat,
    sellableExecutableLotCount: nat,
    reservedExitQty: real,
    sellableExecutableQty: real,
    sellSubmitLotCount: nat,
    exitAllowed: bool,
    exitBlockReason: string,
    sellQtyBasisQty: real,
    sellQtyBoundaryKind: string,
    sellNormalizedExposureQty: real,
    sellOpenExposureQty: real,
    sellDustTrackingQty: real)

  // Reasons that an entry is blocked when none is recorded.
  const DUST_ONLY_REMAINDER := "dust_only_remainder"
  const POSITION_HAS_EXECUTABLE_EXPOSURE := "position_has_executable_exposure"
  const LEGACY_LOT_METADATA_MISSING := "legacy_lot_metadata_missing"
  const NO_REASON := "none"

  // ----- Reading values -----

  function Get(d: Dict, f: Field): Value { if f in d then d[f] else Null }

  /** A lookup whose default applies only when the key is absent. */
  function GetOr(d: Dict, f: Field, default: Value): Value { if f in d then d[f] else default }

  /** The first of two candidates that is not null. */
  function Or(x: Value, y: Value): Value { if x.Null? then y else x }

  function AsBool(v: Value): bool {
    match v
    case Null => false
    case Flag(b) => b
    case Number(r) => r != 0.0
    case Words(t) => Lower(Strip(t)) !in {"0", "false", "no", "off", ""}
  }

  function AsFloat(n: Notation, v: Value): Option<real> {
    match v
    case Null => None
    case Flag(b) => Some(if b then 1.0 else 0.0)
    case Number(r) => Some(r)
    case Words(t) => n.parse(t)
  }

  function AsText(n: Notation, v: Value, default: string): string {
    match v
    case Null => default
    case Flag(b) => if b then "True" else "False"
    case Number(r) => n.show(r)
    case Words(t) => t
  }

  function BoolOr(v: Value, default: bool): bool { if v.Null? then default else AsBool(v) }

  /** A candidate that is present but not a number reads as zero. */
  function FloatOr(n: Notation, v: Value, default: real): real {
    if v.Null? then default else
      match AsFloat(n, v) case None => 0.0 case Some(r) => r
  }

  /** Truncated, and not below zero. */
  function CountOf(n: Notation, v: Value): nat {
    var r := FloatOr(n, v, 0.0);
    if r < 0.0 then 0 else r.Floor
  }

  /** Candidate order of the raw quantities and position flags. */
  function StateFirst(c: Context, f: Field): Value {
    Or(Get(c.state, f), Or(Get(c.normalized, f), Or(Get(c.top, f), Get(c.gate, f))))
  }

  /** Candidate order of the recovery fields. */
  function NormalizedFirst(c: Context, f: Field): Value {
    Or(Get(c.normalized, f), Or(Get(c.state, f), Or(Get(c.top, f), Get(c.gate, f))))
  }

  function MaxZero(r: real): real { if r < 0.0 then 0.0 else r }

  // ----- Raw quantities -----

  function ResolveDustClassification(n: Notation, c: Context): string {
    AsText(n, GetOr(c.top, DustClassification,
        GetOr(c.gate, DustClassification, GetOr(c.gate, DustState, Words("")))), "")
  }

  function ResolveRawQtyOpen(n: Notation, c: Context): real { FloatOr(n, StateFirst(c, RawQtyOpen), 0.0) }

  function ResolveRawTotal(n: Notation, c: Context): real {
    FloatOr(n,
      Or(StateFirst(c, RawTotalAssetQty),
      Or(Get(c.top, RawQtyOpen), Or(Get(c.normalized, RawQtyOpen), Get(c.gate, RawQtyOpen)))),
      ResolveRawQtyOpen(n, c))
  }

  function ResolveDustTrackingQty(n: Notation, c: Context): real { FloatOr(n, StateFirst(c, DustTrackingQty), 0.0) }

  // ----- Sell authority -----

  datatype SellAuthority = SellAuthority(
    openExposureQty: real, openLotCount: nat, reservedExitQty: real, reservedExitLotCount: nat,
    sellableLotCount: nat, sellableQty: real, semanticBasis: string)

  /** Read from the normalised exposure only. */
  function CanonicalSellAuthority(n: Notation, c: Context): SellAuthority {
    var open := FloatOr(n, Get(c.normalized, OpenExposureQty), 0.0);
    var reserved := FloatOr(n, Get(c.normalized, ReservedExitQty), 0.0);
    SellAuthority(
      open, CountOf(n, Get(c.normalized, OpenLotCount)),
      reserved, CountOf(n, Get(c.normalized, ReservedExitLotCount)),
      CountOf(n, Get(c.normalized, SellableExecutableLotCount)),
      FloatOr(n, Get(c.normalized, SellableExecutableQty), MaxZero(open - reserved)),
      AsText(n, GetOr(c.state, SemanticBasis, Get(c.normalized, SemanticBasis)), ""))
  }

  /** Without a normalised exposure there is no authority at all. */
  function FailClosedSellAuthority(n: Notation, c: Context): SellAuthority {
    SellAuthority(0.0, 0, 0.0, 0, 0, 0.0, AsText(n, Get(c.state, SemanticBasis), ""))
  }

  /** Legacy lot semantics, or a position without open lots, drop the quantities. */
  function ApplyFallbacks(a: SellAuthority, rawTotal: real): SellAuthority {
    var legacy := a.semanticBasis != "" && a.semanticBasis != "lot-native";
    if legacy || (a.openLotCount <= 0 && rawTotal > EPS) || a.openLotCount <= 0
    then a.(openExposureQty := 0.0, sellableQty := 0.0)
    else a
  }

  /** Reading the payload's own raw total; `None` when it holds text that is not a number. */
  function DiagnosticRawTotal(n: Notation, c: Context): Option<real> {
    match Get(c.top, RawTotalAssetQty)
    case Null => Some(0.0)
    case Flag(b) => Some(if b then 1.0 else 0.0)
    case Number(r) => Some(MaxZero(r))
    case Words(t) => if t == "" then Some(0.0) else
      match n.parse(t) case None => None case Some(r) => Some(MaxZero(r))
  }

  function ResolveSellAuthority(n: Notation, c: Context, rawTotal: real): SellAuthority {
    ApplyFallbacks(
      if c.normalized != map[] then CanonicalSellAuthority(n, c) else FailClosedSellAuthority(n, c), rawTotal)
  }

  function DerivedExit(rawTotal: real, dustQty: real, a: SellAuthority): (bool, string) {
    if a.sellableLotCount > 0 && a.sellableQty > EPS then (true, "none")
    else if a.openLotCount > 0 && a.reservedExitLotCount > 0 then (false, "reserved_for_open_sell_orders")
    else if a.openLotCount <= 0 && dustQty > EPS then (false, "dust_only_remainder")
    else if rawTotal <= EPS then (false, "no_position")
    else (false, "no_executable_exit_lot")
  }

  // ----- Entry gate, recovery, exposure -----

  function ResolveEntryAllowed(n: Notation, c: Context): bool {
    var v := Or(Get(c.normalized, EntryAllowed), Or(Get(c.top, EntryAllowed), Or(Get(c.gate, EntryAllowed),
             Or(Get(c.gate, EffectiveFlatDueToHarmlessDust), Get(c.gate, DustTreatAsFlat)))));
    BoolOr(v, false) || ResolveRawTotal(n, c) <= EPS
  }

  function ResolveEffectiveFlat(n: Notation, c: Context): bool {
    var v := Or(Get(c.normalized, EffectiveFlat), Or(Get(c.top, EffectiveFlat),
             Or(Get(c.gate, EffectiveFlatDueToHarmlessDust), Get(c.gate, DustTreatAsFlat))));
    BoolOr(v, false) || ResolveRawTotal(n, c) <= EPS
  }

  function ResolveUnresolvedOrders(n: Notation, c: Context): nat {
    CountOf(n, Or(Get(c.normalized, UnresolvedOrderCount), Or(Get(c.state, UnresolvedOrderCount),
               Or(Get(c.top, UnresolvedOrderCount), Or(Get(c.top, UnresolvedOpenOrderCount),
               Or(Get(c.gate, UnresolvedOrderCount), Get(c.gate, UnresolvedOpenOrderCount)))))))
  }

  function RecoveryReason(unresolved: nat, required: nat): string {
    if required > 0 && unresolved > 0 then "recovery_required_and_unresolved_orders_present"
    else if required > 0 then "recovery_required_present"
    else if unresolved > 0 then "unresolved_orders_present"
    else "none"
  }

  function ResolveRecoveryBlockReason(n: Notation, c: Context, derived: string): string {
    AsText(n,
      GetOr(c.normalized, RecoveryBlockReason, GetOr(c.state, RecoveryBlockReason,
        GetOr(c.top, RecoveryBlockReason, Get(c.gate, RecoveryBlockReason)))),
      derived)
  }

  /** Where a resolved value came from. */
  datatype Source = Read(field: Field) | OpenExposureFallback | LotCountFallback | Default

  function ResolveExposureQty(n: Notation, c: Context, openQty: real, executable: bool): (real, Source) {
    var v := StateFirst(c, NormalizedExposureQty);
    var source := if !v.Null? then Read(NormalizedExposureQty) else if executable then OpenExposureFallback
        else Default;
    var resolved := FloatOr(n, v, if executable then openQty else 0.0);
    var qty := if source == Default then (if executable then openQty else 0.0) else resolved;
    (if !executable && source != Read(NormalizedExposureQty) then 0.0 else qty, source)
  }

  function ResolveExposureActive(c: Context, a: SellAuthority, qtySource: Source): bool {
    var v := StateFirst(c, NormalizedExposureActive);
    var lots := a.openLotCount > 0 || a.reservedExitLotCount > 0;
    var source := if !v.Null? then Read(NormalizedExposureActive) else if lots then LotCountFallback else qtySource;
    var active := if source == qtySource then lots else BoolOr(v, lots);
    if a.openLotCount <= 0 && a.reservedExitLotCount <= 0 && source != Read(NormalizedExposureActive) then false
        else active
  }

  function ResolveEntryBlockReason(
    n: Notation, c: Context, entryAllowed: bool, dustOnly: bool, executable: bool, residue: bool): string
  {
    if entryAllowed then NO_REASON else
      var text := Strip(AsText(n, Get(c.normalized, EntryBlockReason), ""));
      if text != "" && text != NO_REASON then text
      else if dustOnly then DUST_ONLY_REMAINDER
      else if executable then POSITION_HAS_EXECUTABLE_EXPOSURE
      else if residue then LEGACY_LOT_METADATA_MISSING
      else NO_REASON
  }

  function ResolveBoundaryKind(n: Notation, c: Context): string {
    var top := AsText(n, Get(c.top, SellQtyBoundaryKind), "");
    var state := AsText(n, Get(c.state, SellQtyBoundaryKind), "");
    var normalized := AsText(n, Get(c.normalized, SellQtyBoundaryKind), "");
    if top != "" then top else if state != "" then state else if normalized != "" then normalized else "none"
  }

  function HoldingState(a: SellAuthority, executable: bool, dustOnly: bool, residue: bool): string {
    if a.openLotCount > 0 && a.reservedExitLotCount > 0 && a.sellableLotCount <= 0 then "reserved_exit_pending"
    else if executable then "open_exposure"
    else if dustOnly then "dust_only"
    else if residue then "non_executable_position"
    else "flat"
  }

  /** The snapshot, given the payload's own raw total. */
  function SnapshotOf(n: Notation, c: Context, diagnosticTotal: real): Snapshot {
    var rawTotal := ResolveRawTotal(n, c);
    var dustQty := ResolveDustTrackingQty(n, c);
    var a := ResolveSellAuthority(n, c, diagnosticTotal);
    var exit := DerivedExit(rawTotal, dustQty, a);
    var entryAllowed := ResolveEntryAllowed(n, c);
    var effectiveFlat := ResolveEffectiveFlat(n, c);
    var executable := BoolOr(StateFirst(c, HasExecutableExposure), a.openLotCount > 0 && a.sellableQty > EPS);
    var residue := BoolOr(StateFirst(c, HasAnyPositionResidue), rawTotal > EPS);
    var dustOnly := BoolOr(StateFirst(c, HasDustOnlyRemainder), dustQty > EPS && a.openLotCount <= 0);
    var unresolved := ResolveUnresolvedOrders(n, c);
    var required := CountOf(n, NormalizedFirst(c, RecoveryRequiredCount));
    var (exposureQty, qtySource) := ResolveExposureQty(n, c, a.openExposureQty, executable);
    Snapshot(
      dustClassification := ResolveDustClassification(n, c),
      entryAllowed := entryAllowed,
      entryBlockReason := ResolveEntryBlockReason(n, c, entryAllowed, dustOnly, executable, residue),
      effectiveFlat := effectiveFlat,
      entryGateEffectiveFlat := effectiveFlat,
      holdingAuthorityState := HoldingState(a, executable, dustOnly, residue),
      rawQtyOpen := ResolveRawQtyOpen(n, c),
      rawTotalAssetQty := rawTotal,
      positionQty := a.openExposureQty,
      submitPayloadQty := exposureQty,
      normalizedExposureActive := ResolveExposureActive(c, a, qtySource),
      normalizedExposureQty := exposureQty,
      hasExecutableExposure := executable,
      hasAnyPositionResidue := residue,
      hasNonExecutableResidue := BoolOr(StateFirst(c, HasNonExecutableResidue), residue && !executable),
      hasDustOnlyRemainder := dustOnly,
      recoveryBlocked := BoolOr(NormalizedFirst(c, RecoveryBlocked), unresolved > 0 || required > 0),
      recoveryBlockReason := ResolveRecoveryBlockReason(n, c, RecoveryReason(unresolved, required)),
      unresolvedOrderCount := unresolved,
      recoveryRequiredCount := required,
      openExposureQty := a.openExposureQty,
      dustTrackingQty := dustQty,
      openLotCount := a.openLotCount,
      dustTrackingLotCount := CountOf(n, StateFirst(c, DustTrackingLotCount)),
      reservedExitLotCount := a.reservedExitLotCount,
      sellableExecutableLotCount := a.sellableLotCount,
      reservedExitQty := a.reservedExitQty,
      sellableExecutableQty := a.sellableQty,
      sellSubmitLotCount := a.sellableLotCount,
      exitAllowed := BoolOr(Get(c.normalized, ExitAllowed), exit.0),
      exitBlockReason := AsText(n, Get(c.normalized, ExitBlockReason), exit.1),
      sellQtyBasisQty := a.sellableQty,
      sellQtyBoundaryKind := ResolveBoundaryKind(n, c),
      sellNormalizedExposureQty := exposureQty,
      sellOpenExposureQty := a.openExposureQty,
      sellDustTrackingQty := dustQty)
  }

  /** `None` stands for the exception raised on a raw total that is not a number. */
  function Resolve(n: Notation, c: Context): Option<Snapshot> {
    match DiagnosticRawTotal(n, c)
    case None => None
    case Some(total) => Some(SnapshotOf(n, c, total))
  }

  // ----- Writing back -----

  /** What normalisation writes into a field of the payload; null when it leaves the field alone. */
  function StoredTop(s: Snapshot, f: Field): Value {
    match f
    case DustClassification => Words(s.dustClassification)
    case EntryAllowed => Flag(s.entryAllowed)
    case EntryBlockReason => Words(s.entryBlockReason)
    case EffectiveFlat => Flag(s.effectiveFlat)
    case EntryGateEffectiveFlat => Flag(s.entryGateEffectiveFlat)
    case HoldingAuthorityState => Words(s.holdingAuthorityState)
    case RawQtyOpen => Number(s.rawQtyOpen)
    case RawTotalAssetQty => Number(s.rawTotalAssetQty)
    case PositionQty => Number(s.positionQty)
    case SubmitPayloadQty => Number(s.submitPayloadQty)
    case SubmitLotCount => Number(s.sellSubmitLotCount as real)
    case PositionStateLotCount => Number(s.sellSubmitLotCount as real)
    case NormalizedExposureActive => Flag(s.normalizedExposureActive)
    case NormalizedExposureQty => Number(s.normalizedExposureQty)
    case HasExecutableExposure => Flag(s.hasExecutableExposure)
    case HasAnyPositionResidue => Flag(s.hasAnyPositionResidue)
    case HasNonExecutableResidue => Flag(s.hasNonExecutableResidue)
    case HasDustOnlyRemainder => Flag(s.hasDustOnlyRemainder)
    case RecoveryBlocked => Flag(s.recoveryBlocked)
    case RecoveryBlockReason => Words(s.recoveryBlockReason)
    case UnresolvedOrderCount => Number(s.unresolvedOrderCount as real)
    case RecoveryRequiredCount => Number(s.recoveryRequiredCount as real)
    case OpenExposureQty => Number(s.openExposureQty)
    case DustTrackingQty => Number(s.dustTrackingQty)
    case OpenLotCount => Number(s.openLotCount as real)
    case DustTrackingLotCount => Number(s.dustTrackingLotCount as real)
    case ReservedExitLotCount => Number(s.reservedExitLotCount as real)
    case SellableExecutableLotCount => Number(s.sellableExecutableLotCount as real)
    case ReservedExitQty => Number(s.reservedExitQty)
    case SellableExecutableQty => Number(s.sellableExecutableQty)
    case SellSubmitLotCount => Number(s.sellSubmitLotCount as real)
    case ExitAllowed => Flag(s.exitAllowed)
    case ExitBlockReason => Words(s.exitBlockReason)
    case SellQtyBasisQty => Number(s.sellQtyBasisQty)
    case SellQtyBoundaryKind => Words(s.sellQtyBoundaryKind)
    case SellNormalizedExposureQty => Number(s.sellNormalizedExposureQty)
    case SellOpenExposureQty => Number(s.sellOpenExposureQty)
    case SellDustTrackingQty => Number(s.sellDustTrackingQty)
    case _ => Null
  }

  /** What normalisation writes into a field of the normalised exposure. */
  function StoredNormalized(s: Snapshot, f: Field): Value {
    match f
    case RawQtyOpen => Number(s.rawQtyOpen)
    case RawTotalAssetQty => Number(s.rawTotalAssetQty)
    case DustClassification => Words(s.dustClassification)
    case DustState => Words(s.dustClassification)
    case EntryAllowed => Flag(s.entryAllowed)
    case EffectiveFlat => Flag(s.effectiveFlat)
    case EntryGateEffectiveFlat => Flag(s.entryGateEffectiveFlat)
    case HarmlessDustEffectiveFlat => Flag(s.entryAllowed && s.dustClassification == "harmless_dust")
    case EffectiveFlatDueToHarmlessDust => Flag(s.entryAllowed && s.dustClassification == "harmless_dust")
    case HoldingAuthorityState => Words(s.holdingAuthorityState)
    case NormalizedExposureActive => Flag(s.normalizedExposureActive)
    case NormalizedExposureQty => Number(s.normalizedExposureQty)
    case HasExecutableExposure => Flag(s.hasExecutableExposure)
    case HasAnyPositionResidue => Flag(s.hasAnyPositionResidue)
    case HasNonExecutableResidue => Flag(s.hasNonExecutableResidue)
    case HasDustOnlyRemainder => Flag(s.hasDustOnlyRemainder)
    case RecoveryBlocked => Flag(s.recoveryBlocked)
    case RecoveryBlockReason => Words(s.recoveryBlockReason)
    case UnresolvedOrderCount => Number(s.unresolvedOrderCount as real)
    case RecoveryRequiredCount => Number(s.recoveryRequiredCount as real)
    case OpenExposureQty => Number(s.openExposureQty)
    case DustTrackingQty => Number(s.dustTrackingQty)
    case OpenLotCount => Number(s.openLotCount as real)
    case DustTrackingLotCount => Number(s.dustTrackingLotCount as real)
    case ReservedExitLotCount => Number(s.reservedExitLotCount as real)
    case SellableExecutableLotCount => Number(s.sellableExecutableLotCount as real)
    case SubmitLotCount => Number(s.sellSubmitLotCount as real)
    case PositionStateLotCount => Number(s.sellSubmitLotCount as real)
    case ReservedExitQty => Number(s.reservedExitQty)
    case SellableExecutableQty => Number(s.sellableExecutableQty)
    case ExitAllowed => Flag(s.exitAllowed)
    case ExitBlockReason => Words(s.exitBlockReason)
    case EntryBlockReason => Words(s.entryBlockReason)
    case _ => Null
  }

  function WriteTop(d: Dict, s: Snapshot): Dict {
    map f: Field | f in d || !StoredTop(s, f).Null? :: Or(StoredTop(s, f), Get(d, f))
  }

  function WriteNormalized(d: Dict, s: Snapshot): Dict {
    map f: Field | f in d || !StoredNormalized(s, f).Null? :: Or(StoredNormalized(s, f), Get(d, f))
  }

  /** The stored context: the snapshot laid over the payload and over the normalised exposure. The
      gate and the rest of the position state are kept as they were. */
  function Stored(c: Context, s: Snapshot): Context {
    Context(WriteTop(c.top, s), c.gate, c.state, WriteNormalized(c.normalized, s))
  }

  function Normalize(n: Notation, c: Context): Option<Context> {
    match Resolve(n, c)
    case None => None
    case Some(s) => Some(Stored(c, s))
  }
}
