/** What every field of a resolved snapshot is, said of the context alone: which layers are asked in which
    order, how the value found is read, and what stands in when no layer says anything. */
module ExposureMeaning {
  import opened Wrappers
  import opened Rounding
  import opened Text
  import opened Exposure
  import opened ExposureProofs

  // ----- Asking layers in order -----

  /** A field of one layer. */
  datatype Place = Place(layer: Dict, field: Field)

  predicate Silent(p: Place) { p.field !in p.layer || p.layer[p.field] == Null }

  /** The place that is asked successfully: it says something, and no place before it does. */
  ghost predicate First(ps: seq<Place>, i: nat) {
    i < |ps| && !Silent(ps[i]) && forall j :: 0 <= j < i ==> Silent(ps[j])
  }

  ghost predicate AllSilent(ps: seq<Place>) { forall i :: 0 <= i < |ps| ==> Silent(ps[i]) }

  function Said(p: Place): Value
    requires !Silent(p)
  {
    p.layer[p.field]
  }

  // ----- Reading what is said -----

  /** A number is itself, a flag one or zero, a text what it parses to, and zero otherwise. */
  predicate IsNumber(n: Notation, v: Value, x: real) {
    match v
    case Null => false
    case Flag(b) => x == if b then 1.0 else 0.0
    case Number(r) => x == r
    case Words(t) => x == match n.parse(t) case None => 0.0 case Some(r) => r
  }

  /** The whole part of a number that is not negative, and zero for a negative one. */
  ghost predicate IsCount(n: Notation, v: Value, k: int) {
    exists x :: IsNumber(n, v, x) && if x < 0.0 then k == 0 else k as real <= x < k as real + 1.0
  }

  /** A text is false exactly when, trimmed and in lower case, it is one of five words. */
  predicate IsTrue(v: Value) {
    match v
    case Null => false
    case Flag(b) => b
    case Number(r) => r != 0.0
    case Words(t) => Lower(Strip(t)) !in {"0", "false", "no", "off", ""}
  }

  predicate IsText(n: Notation, v: Value, t: string) {
    match v
    case Null => false
    case Flag(b) => t == if b then "True" else "False"
    case Number(r) => t == n.show(r)
    case Words(w) => t == w
  }

  ghost predicate NumberFrom(n: Notation, ps: seq<Place>, default: real, x: real) {
    && (forall i: nat :: First(ps, i) ==> IsNumber(n, Said(ps[i]), x))
    && (AllSilent(ps) ==> x == default)
  }

  ghost predicate CountFrom(n: Notation, ps: seq<Place>, k: nat) {
    && (forall i: nat :: First(ps, i) ==> IsCount(n, Said(ps[i]), k))
    && (AllSilent(ps) ==> k == 0)
  }

  ghost predicate FlagFrom(ps: seq<Place>, default: bool, b: bool) {
    && (forall i: nat :: First(ps, i) ==> b == IsTrue(Said(ps[i])))
    && (AllSilent(ps) ==> b == default)
  }

  /** The first place whose key is there at all, with whatever value. */
  ghost predicate FirstKey(ps: seq<Place>, i: nat) {
    i < |ps| && ps[i].field in ps[i].layer && forall j :: 0 <= j < i ==> ps[j].field !in ps[j].layer
  }

  /** That place gives the text; a null there, or no key anywhere, gives the default. */
  ghost predicate TextFrom(n: Notation, ps: seq<Place>, default: string, t: string) {
    && (forall i: nat :: FirstKey(ps, i) ==> if Silent(ps[i]) then t == default else IsText(n, Said(ps[i]), t))
    && ((forall i :: 0 <= i < |ps| ==> ps[i].field !in ps[i].layer) ==> t == default)
  }

  /** The first place that says a text other than the empty one gives it. */
  ghost predicate FirstTextFrom(n: Notation, ps: seq<Place>, default: string, t: string) {
    && (forall i: nat :: i < |ps| && SaysText(n, ps[i]) && (forall j :: 0 <= j < i ==> !SaysText(n, ps[j])) ==>
          IsText(n, Said(ps[i]), t))
    && ((forall i :: 0 <= i < |ps| ==> !SaysText(n, ps[i])) ==> t == default)
  }

  predicate SaysText(n: Notation, p: Place) { !Silent(p) && !IsText(n, Said(p), "") }

  // ----- The orders in which layers are asked -----

  /** Raw quantities and position flags. */
  function StateOrder(c: Context, f: Field): seq<Place> {
    [Place(c.state, f), Place(c.normalized, f), Place(c.top, f), Place(c.gate, f)]
  }

  /** Recovery fields. */
  function NormalOrder(c: Context, f: Field): seq<Place> {
    [Place(c.normalized, f), Place(c.state, f), Place(c.top, f), Place(c.gate, f)]
  }

  /** The normalised exposure and nothing else. */
  function OnlyNormal(c: Context, f: Field): seq<Place> { [Place(c.normalized, f)] }

  function RawTotalOrder(c: Context): seq<Place> {
    StateOrder(c, RawTotalAssetQty)
    + [Place(c.top, RawQtyOpen), Place(c.normalized, RawQtyOpen), Place(c.gate, RawQtyOpen)]
  }

  function EntryOrder(c: Context): seq<Place> {
    [Place(c.normalized, EntryAllowed), Place(c.top, EntryAllowed), Place(c.gate, EntryAllowed),
     Place(c.gate, EffectiveFlatDueToHarmlessDust), Place(c.gate, DustTreatAsFlat)]
  }

  function FlatOrder(c: Context): seq<Place> {
    [Place(c.normalized, EffectiveFlat), Place(c.top, EffectiveFlat),
     Place(c.gate, EffectiveFlatDueToHarmlessDust), Place(c.gate, DustTreatAsFlat)]
  }

  function OrderCountOrder(c: Context): seq<Place> {
    [Place(c.normalized, UnresolvedOrderCount), Place(c.state, UnresolvedOrderCount),
        Place(c.top, UnresolvedOrderCount),
     Place(c.top, UnresolvedOpenOrderCount), Place(c.gate, UnresolvedOrderCount),
         Place(c.gate, UnresolvedOpenOrderCount)]
  }

  function DustOrder(c: Context): seq<Place> {
    [Place(c.top, DustClassification), Place(c.gate, DustClassification), Place(c.gate, DustState)]
  }

  // ----- The meaning of a snapshot -----

  /** Quantities and counts that are simply looked up. */
  ghost predicate QuantitiesMean(n: Notation, c: Context, s: Snapshot) {
    && TextFrom(n, DustOrder(c), "", s.dustClassification)
    && NumberFrom(n, StateOrder(c, RawQtyOpen), 0.0, s.rawQtyOpen)
    && NumberFrom(n, RawTotalOrder(c), s.rawQtyOpen, s.rawTotalAssetQty)
    && NumberFrom(n, StateOrder(c, DustTrackingQty), 0.0, s.dustTrackingQty)
    && CountFrom(n, StateOrder(c, DustTrackingLotCount), s.dustTrackingLotCount)
    && s.sellDustTrackingQty == s.dustTrackingQty
  }

  /** The lot semantics are another kind than lot-native. */
  ghost predicate LegacyBasis(n: Notation, c: Context) {
    exists basis :: basis != "" && basis != "lot-native"
      && TextFrom(n, [Place(c.state, SemanticBasis), Place(c.normalized, SemanticBasis)], "", basis)
  }

  /** Sell authority: every count and quantity is the one that the normalised exposure stores under its own
      name; quantities are dropped under legacy lot semantics and without open lots; and without a
      normalised exposure there is nothing. */
  ghost predicate AuthorityMeans(n: Notation, c: Context, s: Snapshot) {
    && s.sellSubmitLotCount == s.sellableExecutableLotCount && s.sellQtyBasisQty == s.sellableExecutableQty
    && s.positionQty == s.sellOpenExposureQty == s.openExposureQty
    && if c.normalized == map[] then
         && s.openLotCount == s.reservedExitLotCount == s.sellableExecutableLotCount == 0
         && s.openExposureQty == s.reservedExitQty == s.sellableExecutableQty == 0.0
       else
         && CountFrom(n, OnlyNormal(c, OpenLotCount), s.openLotCount)
         && CountFrom(n, OnlyNormal(c, ReservedExitLotCount), s.reservedExitLotCount)
         && CountFrom(n, OnlyNormal(c, SellableExecutableLotCount), s.sellableExecutableLotCount)
         && NumberFrom(n, OnlyNormal(c, ReservedExitQty), 0.0, s.reservedExitQty)
         && (s.openLotCount == 0 || LegacyBasis(n, c) ==> s.openExposureQty == s.sellableExecutableQty == 0.0)
         && (s.openLotCount > 0 && !LegacyBasis(n, c) ==>
               && NumberFrom(n, OnlyNormal(c, OpenExposureQty), 0.0, s.openExposureQty)
               && var left := s.openExposureQty - s.reservedExitQty;
                  NumberFrom(n, OnlyNormal(c, SellableExecutableQty), if left < 0.0 then 0.0
                      else left, s.sellableExecutableQty))
  }

  /** Position flags, and the exposure that goes with them. */
  ghost predicate FlagsMean(n: Notation, c: Context, s: Snapshot) {
    && FlagFrom(StateOrder(c, HasExecutableExposure), s.openLotCount > 0
        && s.sellableExecutableQty > EPS, s.hasExecutableExposure)
    && FlagFrom(StateOrder(c, HasAnyPositionResidue), s.rawTotalAssetQty > EPS, s.hasAnyPositionResidue)
    && FlagFrom(StateOrder(c, HasNonExecutableResidue), s.hasAnyPositionResidue
        && !s.hasExecutableExposure, s.hasNonExecutableResidue)
    && FlagFrom(StateOrder(c, HasDustOnlyRemainder), s.dustTrackingQty > EPS
        && s.openLotCount == 0, s.hasDustOnlyRemainder)
    && NumberFrom(n, StateOrder(c, NormalizedExposureQty), if s.hasExecutableExposure then s.openExposureQty
        else 0.0, s.normalizedExposureQty)
    && FlagFrom(StateOrder(c, NormalizedExposureActive), s.openLotCount > 0 || s.reservedExitLotCount > 0,
        s.normalizedExposureActive)
    && s.submitPayloadQty == s.sellNormalizedExposureQty == s.normalizedExposureQty
  }

  /** Entry is allowed, and the position effectively flat, when the layers say so or nothing is held. */
  ghost predicate EntryMeans(c: Context, s: Snapshot) {
    && (s.rawTotalAssetQty <= EPS ==> s.entryAllowed && s.effectiveFlat)
    && (s.rawTotalAssetQty > EPS ==>
          FlagFrom(EntryOrder(c), false, s.entryAllowed) && FlagFrom(FlatOrder(c), false, s.effectiveFlat))
    && s.entryGateEffectiveFlat == s.effectiveFlat
  }

  function Derived(first: bool, x: string, second: bool, y: string, third: bool, z: string, otherwise: string): string {
    if first then x else if second then y else if third then z else otherwise
  }

  ghost predicate RecoveryMeans(n: Notation, c: Context, s: Snapshot) {
    var unresolved, required := s.unresolvedOrderCount > 0, s.recoveryRequiredCount > 0;
    && CountFrom(n, OrderCountOrder(c), s.unresolvedOrderCount)
    && CountFrom(n, NormalOrder(c, RecoveryRequiredCount), s.recoveryRequiredCount)
    && FlagFrom(NormalOrder(c, RecoveryBlocked), unresolved || required, s.recoveryBlocked)
    && TextFrom(n, NormalOrder(c, RecoveryBlockReason),
         Derived(required && unresolved, "recovery_required_and_unresolved_orders_present",
                 required, "recovery_required_present", unresolved, "unresolved_orders_present", "none"),
         s.recoveryBlockReason)
  }

  /** Exit is allowed when the stored exposure says so, or else when lots can be sold. */
  ghost predicate ExitMeans(n: Notation, c: Context, s: Snapshot) {
    var sellable := s.sellableExecutableLotCount > 0 && s.sellableExecutableQty > EPS;
    && FlagFrom(OnlyNormal(c, ExitAllowed), sellable, s.exitAllowed)
    && TextFrom(n, OnlyNormal(c, ExitBlockReason),
         if sellable then "none" else
           Derived(s.openLotCount > 0 && s.reservedExitLotCount > 0, "reserved_for_open_sell_orders",
                   s.openLotCount == 0 && s.dustTrackingQty > EPS, "dust_only_remainder",
                   s.rawTotalAssetQty <= EPS, "no_position", "no_executable_exit_lot"),
         s.exitBlockReason)
  }

  ghost predicate HoldingMeans(n: Notation, c: Context, s: Snapshot) {
    && FirstTextFrom(n, [Place(c.top, SellQtyBoundaryKind), Place(c.state, SellQtyBoundaryKind),
                         Place(c.normalized, SellQtyBoundaryKind)], "none", s.sellQtyBoundaryKind)
    && s.holdingAuthorityState ==
         if s.openLotCount > 0 && s.reservedExitLotCount > 0 && s.sellableExecutableLotCount == 0
         then "reserved_exit_pending"
         else Derived(s.hasExecutableExposure, "open_exposure", s.hasDustOnlyRemainder, "dust_only",
                      s.hasAnyPositionResidue, "non_executable_position", "flat")
  }

  /** An entry that is not allowed is blocked for the stored reason, trimmed, or for what the flags say. */
  ghost predicate EntryReasonMeans(n: Notation, c: Context, s: Snapshot) {
    if s.entryAllowed then s.entryBlockReason == "none" else
      forall t :: TextFrom(n, OnlyNormal(c, EntryBlockReason), "", t) ==>
        s.entryBlockReason ==
          if Strip(t) != "" && Strip(t) != "none" then Strip(t)
          else Derived(s.hasDustOnlyRemainder, "dust_only_remainder",
                       s.hasExecutableExposure, "position_has_executable_exposure",
                       s.hasAnyPositionResidue, "legacy_lot_metadata_missing", "none")
  }

  // ----- Layers and resolution -----

  /** The first value that is said. */
  function FirstValue(ps: seq<Place>): Value {
    if ps == [] then Null else Or(Get(ps[0].layer, ps[0].field), FirstValue(ps[1..]))
  }

  lemma {:induction false} FirstValueLaw(ps: seq<Place>)
    ensures forall i: nat :: First(ps, i) ==> FirstValue(ps) == Said(ps[i]) != Null
    ensures AllSilent(ps) ==> FirstValue(ps) == Null
  {
    if ps != [] {
      var rest := ps[1..];
      FirstValueLaw(rest);
      forall i: nat | First(ps, i) ensures FirstValue(ps) == Said(ps[i]) != Null {
        if i > 0 {
          assert Silent(ps[0]) && rest[i - 1] == ps[i];
          assert forall j :: 0 <= j < i - 1 ==> rest[j] == ps[j + 1];
          assert First(rest, i - 1);
        }
      }
      if AllSilent(ps) {
        assert Silent(ps[0]) && forall j :: 0 <= j < |rest| ==> rest[j] == ps[j + 1];
      }
    }
  }

  lemma NumberRead(n: Notation, ps: seq<Place>, default: real, v: Value)
    requires v == FirstValue(ps)
    ensures NumberFrom(n, ps, default, FloatOr(n, v, default))
  {
    FirstValueLaw(ps);
  }

  lemma CountRead(n: Notation, ps: seq<Place>, v: Value)
    requires v == FirstValue(ps)
    ensures CountFrom(n, ps, CountOf(n, v))
  {
    FirstValueLaw(ps);
    if v != Null {
      var x := FloatOr(n, v, 0.0);
      assert IsNumber(n, v, x);
    }
  }

  lemma FlagRead(ps: seq<Place>, default: bool, v: Value)
    requires v == FirstValue(ps)
    ensures FlagFrom(ps, default, BoolOr(v, default))
  {
    FirstValueLaw(ps);
  }

  function FirstKeyValue(ps: seq<Place>): Value {
    if ps == [] then Null
    else if ps[0].field in ps[0].layer then ps[0].layer[ps[0].field]
    else FirstKeyValue(ps[1..])
  }

  lemma {:induction false} FirstKeyLaw(ps: seq<Place>)
    ensures forall i: nat :: FirstKey(ps, i) ==> FirstKeyValue(ps) == ps[i].layer[ps[i].field]
    ensures (forall i :: 0 <= i < |ps| ==> ps[i].field !in ps[i].layer) ==> FirstKeyValue(ps) == Null
  {
    if ps != [] {
      var rest := ps[1..];
      FirstKeyLaw(rest);
      forall i: nat | FirstKey(ps, i) ensures FirstKeyValue(ps) == ps[i].layer[ps[i].field] {
        if i > 0 {
          assert ps[0].field !in ps[0].layer && rest[i - 1] == ps[i];
          assert forall j :: 0 <= j < i - 1 ==> rest[j] == ps[j + 1];
          assert FirstKey(rest, i - 1);
        }
      }
      if forall i :: 0 <= i < |ps| ==> ps[i].field !in ps[i].layer {
        assert ps[0].field !in ps[0].layer && forall j :: 0 <= j < |rest| ==> rest[j] == ps[j + 1];
      }
    }
  }

  lemma TextRead(n: Notation, ps: seq<Place>, default: string, v: Value)
    requires v == FirstKeyValue(ps)
    ensures TextFrom(n, ps, default, AsText(n, v, default))
  {
    FirstKeyLaw(ps);
  }

  // ----- The orders are those of the resolution -----

  lemma FourInOrder(a: Place, b: Place, c: Place, d: Place)
    ensures FirstValue([a, b, c, d])
        == Or(Get(a.layer, a.field), Or(Get(b.layer, b.field), Or(Get(c.layer, c.field), Get(d.layer, d.field))))
    ensures FirstKeyValue([a, b, c, d])
        == GetOr(a.layer, a.field, GetOr(b.layer, b.field, GetOr(c.layer, c.field, Get(d.layer, d.field))))
  {
    assert [a, b, c, d][1..] == [b, c, d] && [b, c, d][1..] == [c, d] && [c, d][1..] == [d];
    OneInOrder(d);
    assert FirstValue([c, d]) == Or(Get(c.layer, c.field), Get(d.layer, d.field));
    assert FirstValue([b, c, d]) == Or(Get(b.layer, b.field), FirstValue([c, d]));
    assert FirstKeyValue([c, d]) == GetOr(c.layer, c.field, Get(d.layer, d.field));
    assert FirstKeyValue([b, c, d]) == GetOr(b.layer, b.field, FirstKeyValue([c, d]));
  }

  lemma OneInOrder(a: Place)
    ensures FirstValue([a]) == Get(a.layer, a.field) == FirstKeyValue([a])
  {
    assert [a][1..] == [];
  }

  lemma StateInOrder(c: Context, f: Field)
    ensures FirstValue(StateOrder(c, f)) == StateFirst(c, f)
  {
    FourInOrder(Place(c.state, f), Place(c.normalized, f), Place(c.top, f), Place(c.gate, f));
  }

  lemma NormalInOrder(c: Context, f: Field)
    ensures FirstValue(NormalOrder(c, f)) == NormalizedFirst(c, f)
  {
    FourInOrder(Place(c.normalized, f), Place(c.state, f), Place(c.top, f), Place(c.gate, f));
  }

  /** Putting one more place in front. */
  lemma OneMore(a: Place, ps: seq<Place>)
    ensures FirstValue([a] + ps) == Or(Get(a.layer, a.field), FirstValue(ps))
    ensures FirstKeyValue([a] + ps) == if a.field in a.layer then a.layer[a.field] else FirstKeyValue(ps)
  {
    assert ([a] + ps)[1..] == ps;
  }

  lemma RawTotalInOrder(c: Context)
    ensures FirstValue(RawTotalOrder(c)) ==
      Or(StateFirst(c, RawTotalAssetQty),
      Or(Get(c.top, RawQtyOpen), Or(Get(c.normalized, RawQtyOpen), Get(c.gate, RawQtyOpen))))
  {
    var p5, p6, p7 := Place(c.top, RawQtyOpen), Place(c.normalized, RawQtyOpen), Place(c.gate, RawQtyOpen);
    var four := StateOrder(c, RawTotalAssetQty);
    OneInOrder(p7);
    OneMore(p6, [p7]);
    OneMore(p5, [p6, p7]);
    assert [p6] + [p7] == [p6, p7] && [p5] + [p6, p7] == [p5, p6, p7];
    FirstOfBoth(four, [p5, p6, p7]);
    StateInOrder(c, RawTotalAssetQty);
  }

  lemma {:induction false} FirstOfBoth(ps: seq<Place>, qs: seq<Place>)
    ensures FirstValue(ps + qs) == Or(FirstValue(ps), FirstValue(qs))
  {
    if ps == [] {
      assert ps + qs == qs;
    } else {
      FirstOfBoth(ps[1..], qs);
      assert (ps + qs)[0] == ps[0] && (ps + qs)[1..] == ps[1..] + qs;
    }
  }

  lemma EntryInOrder(c: Context)
    ensures FirstValue(EntryOrder(c)) ==
      Or(Get(c.normalized, EntryAllowed), Or(Get(c.top, EntryAllowed), Or(Get(c.gate, EntryAllowed),
      Or(Get(c.gate, EffectiveFlatDueToHarmlessDust), Get(c.gate, DustTreatAsFlat)))))
  {
    var a, ps := EntryOrder(c)[0], EntryOrder(c)[1..];
    FourInOrder(ps[0], ps[1], ps[2], ps[3]);
    assert ps == [ps[0], ps[1], ps[2], ps[3]] && EntryOrder(c) == [a] + ps;
    OneMore(a, ps);
  }

  lemma FlatInOrder(c: Context)
    ensures FirstValue(FlatOrder(c)) ==
      Or(Get(c.normalized, EffectiveFlat), Or(Get(c.top, EffectiveFlat),
      Or(Get(c.gate, EffectiveFlatDueToHarmlessDust), Get(c.gate, DustTreatAsFlat))))
  {
    var ps := FlatOrder(c);
    FourInOrder(ps[0], ps[1], ps[2], ps[3]);
    assert ps == [ps[0], ps[1], ps[2], ps[3]];
  }

  lemma OrderCountInOrder(c: Context)
    ensures FirstValue(OrderCountOrder(c)) ==
      Or(Get(c.normalized, UnresolvedOrderCount), Or(Get(c.state, UnresolvedOrderCount),
      Or(Get(c.top, UnresolvedOrderCount), Or(Get(c.top, UnresolvedOpenOrderCount),
      Or(Get(c.gate, UnresolvedOrderCount), Get(c.gate, UnresolvedOpenOrderCount))))))
  {
    var ps := OrderCountOrder(c);
    var four := ps[2..];
    FourInOrder(ps[2], ps[3], ps[4], ps[5]);
    assert four == [ps[2], ps[3], ps[4], ps[5]];
    OneMore(ps[1], four);
    OneMore(ps[0], [ps[1]] + four);
    assert ps == [ps[0]] + ([ps[1]] + four);
  }

  lemma DustInOrder(n: Notation, c: Context)
    ensures AsText(n, FirstKeyValue(DustOrder(c)), "") == ResolveDustClassification(n, c)
  {
    var ps := DustOrder(c);
    OneInOrder(ps[2]);
    OneMore(ps[1], [ps[2]]);
    OneMore(ps[0], [ps[1]] + [ps[2]]);
    assert ps == [ps[0]] + ([ps[1]] + [ps[2]]);
  }

  // ----- Every field -----

  lemma QuantitiesResolved(n: Notation, c: Context, s: Snapshot)
    requires ResolvesPosition(n, c, s)
    ensures QuantitiesMean(n, c, s)
  {
    DustInOrder(n, c);
    TextRead(n, DustOrder(c), "", FirstKeyValue(DustOrder(c)));
    StateInOrder(c, RawQtyOpen);
    NumberRead(n, StateOrder(c, RawQtyOpen), 0.0, StateFirst(c, RawQtyOpen));
    RawTotalInOrder(c);
    NumberRead(n, RawTotalOrder(c), s.rawQtyOpen, FirstValue(RawTotalOrder(c)));
    StateInOrder(c, DustTrackingQty);
    NumberRead(n, StateOrder(c, DustTrackingQty), 0.0, StateFirst(c, DustTrackingQty));
    StateInOrder(c, DustTrackingLotCount);
    CountRead(n, StateOrder(c, DustTrackingLotCount), StateFirst(c, DustTrackingLotCount));
  }

  lemma EntryResolved(n: Notation, c: Context, s: Snapshot)
    requires ResolvesPosition(n, c, s)
    ensures EntryMeans(c, s)
  {
    EntryInOrder(c);
    FlagRead(EntryOrder(c), false, FirstValue(EntryOrder(c)));
    FlatInOrder(c);
    FlagRead(FlatOrder(c), false, FirstValue(FlatOrder(c)));
  }

  lemma FlagsResolved(n: Notation, c: Context, a: SellAuthority, s: Snapshot)
    requires ResolvesFlags(c, a, s) && s.openLotCount == a.openLotCount && s.sellableExecutableQty == a.sellableQty
    ensures FlagFrom(StateOrder(c, HasExecutableExposure), s.openLotCount > 0
        && s.sellableExecutableQty > EPS, s.hasExecutableExposure)
    ensures FlagFrom(StateOrder(c, HasAnyPositionResidue), s.rawTotalAssetQty > EPS, s.hasAnyPositionResidue)
    ensures FlagFrom(StateOrder(c, HasNonExecutableResidue), s.hasAnyPositionResidue
        && !s.hasExecutableExposure, s.hasNonExecutableResidue)
    ensures FlagFrom(StateOrder(c, HasDustOnlyRemainder), s.dustTrackingQty > EPS
        && s.openLotCount == 0, s.hasDustOnlyRemainder)
  {
    StateInOrder(c, HasExecutableExposure);
    StateInOrder(c, HasAnyPositionResidue);
    StateInOrder(c, HasNonExecutableResidue);
    StateInOrder(c, HasDustOnlyRemainder);
    FlagRead(StateOrder(c, HasExecutableExposure), s.openLotCount > 0
        && s.sellableExecutableQty > EPS, StateFirst(c, HasExecutableExposure));
    FlagRead(StateOrder(c, HasAnyPositionResidue), s.rawTotalAssetQty > EPS, StateFirst(c, HasAnyPositionResidue));
    FlagRead(StateOrder(c, HasNonExecutableResidue), s.hasAnyPositionResidue
        && !s.hasExecutableExposure, StateFirst(c, HasNonExecutableResidue));
    FlagRead(StateOrder(c, HasDustOnlyRemainder), s.dustTrackingQty > EPS
        && s.openLotCount == 0, StateFirst(c, HasDustOnlyRemainder));
  }

  lemma ExposureResolved(n: Notation, c: Context, a: SellAuthority, s: Snapshot)
    requires ResolvesRest(n, c, a, s) && s.openLotCount == a.openLotCount && s.openExposureQty == a.openExposureQty
    requires s.reservedExitLotCount == a.reservedExitLotCount
    ensures NumberFrom(n, StateOrder(c, NormalizedExposureQty), if s.hasExecutableExposure then s.openExposureQty
        else 0.0, s.normalizedExposureQty)
    ensures FlagFrom(StateOrder(c, NormalizedExposureActive), s.openLotCount > 0 || s.reservedExitLotCount > 0,
        s.normalizedExposureActive)
  {
    StateInOrder(c, NormalizedExposureQty);
    NumberRead(n, StateOrder(c, NormalizedExposureQty), if s.hasExecutableExposure then s.openExposureQty
        else 0.0, StateFirst(c, NormalizedExposureQty));
    StateInOrder(c, NormalizedExposureActive);
    FlagRead(StateOrder(c, NormalizedExposureActive), s.openLotCount > 0 || s.reservedExitLotCount > 0,
        StateFirst(c, NormalizedExposureActive));
  }

  lemma RecoveryResolved(n: Notation, c: Context, a: SellAuthority, s: Snapshot)
    requires ResolvesRest(n, c, a, s)
    ensures RecoveryMeans(n, c, s)
  {
    OrderCountInOrder(c);
    CountRead(n, OrderCountOrder(c), FirstValue(OrderCountOrder(c)));
    NormalInOrder(c, RecoveryRequiredCount);
    CountRead(n, NormalOrder(c, RecoveryRequiredCount), NormalizedFirst(c, RecoveryRequiredCount));
    NormalInOrder(c, RecoveryBlocked);
    FlagRead(NormalOrder(c, RecoveryBlocked), s.unresolvedOrderCount > 0 || s.recoveryRequiredCount > 0,
        NormalizedFirst(c, RecoveryBlocked));
    var f := RecoveryBlockReason;
    FourInOrder(Place(c.normalized, f), Place(c.state, f), Place(c.top, f), Place(c.gate, f));
    TextRead(n, NormalOrder(c, f), RecoveryReason(s.unresolvedOrderCount, s.recoveryRequiredCount),
        FirstKeyValue(NormalOrder(c, f)));
  }

  lemma ExitResolved(n: Notation, c: Context, d: real, s: Snapshot)
    requires ResolvesAuthority(n, c, d, s)
    ensures ExitMeans(n, c, s)
  {
    var exit := DerivedExit(s.rawTotalAssetQty, s.dustTrackingQty, ResolveSellAuthority(n, c, d));
    OneInOrder(Place(c.normalized, ExitAllowed));
    FlagRead(OnlyNormal(c, ExitAllowed), exit.0, Get(c.normalized, ExitAllowed));
    OneInOrder(Place(c.normalized, ExitBlockReason));
    TextRead(n, OnlyNormal(c, ExitBlockReason), exit.1, Get(c.normalized, ExitBlockReason));
  }

  lemma HoldingResolved(n: Notation, c: Context, d: real, s: Snapshot)
    requires ResolvesAuthority(n, c, d, s) && ResolvesRest(n, c, ResolveSellAuthority(n, c, d), s)
    ensures HoldingMeans(n, c, s)
  {
    BoundaryResolved(n, c);
  }

  lemma SpokenText(n: Notation, p: Place)
    ensures SaysText(n, p) <==> AsText(n, Get(p.layer, p.field), "") != ""
    ensures SaysText(n, p) ==> IsText(n, Said(p), AsText(n, Get(p.layer, p.field), ""))
  {
  }

  lemma BoundaryResolved(n: Notation, c: Context)
    ensures FirstTextFrom(n, [Place(c.top, SellQtyBoundaryKind), Place(c.state, SellQtyBoundaryKind),
                              Place(c.normalized, SellQtyBoundaryKind)], "none", ResolveBoundaryKind(n, c))
  {
    var p, q, r := Place(c.top, SellQtyBoundaryKind), Place(c.state, SellQtyBoundaryKind),
        Place(c.normalized, SellQtyBoundaryKind);
    SpokenText(n, p);
    SpokenText(n, q);
    SpokenText(n, r);
    var ps := [p, q, r];
    assert ps[0] == p && ps[1] == q && ps[2] == r;
    forall i: nat | i < |ps| && SaysText(n, ps[i]) && (forall j :: 0 <= j < i ==> !SaysText(n, ps[j]))
      ensures IsText(n, Said(ps[i]), ResolveBoundaryKind(n, c))
    {
      assert i > 0 ==> !SaysText(n, ps[0]);
      assert i > 1 ==> !SaysText(n, ps[1]);
    }
    if forall i :: 0 <= i < |ps| ==> !SaysText(n, ps[i]) {
      assert !SaysText(n, ps[0]) && !SaysText(n, ps[1]) && !SaysText(n, ps[2]);
    }
  }

  lemma EntryReasonResolved(n: Notation, c: Context, a: SellAuthority, s: Snapshot)
    requires ResolvesRest(n, c, a, s)
    ensures EntryReasonMeans(n, c, s)
  {
    OneInOrder(Place(c.normalized, EntryBlockReason));
    forall t | TextFrom(n, OnlyNormal(c, EntryBlockReason), "", t)
        ensures t == AsText(n, Get(c.normalized, EntryBlockReason), "") {
      TextOnce(n, c.normalized, EntryBlockReason, t);
    }
  }

  lemma TextOnce(n: Notation, layer: Dict, f: Field, t: string)
    requires TextFrom(n, [Place(layer, f)], "", t)
    ensures t == AsText(n, Get(layer, f), "")
  {
    if f in layer {
      assert FirstKey([Place(layer, f)], 0);
    }
  }

  // ----- Sell authority -----

  /** The text of the lot semantics. */
  function Basis(n: Notation, c: Context): string {
    AsText(n, GetOr(c.state, SemanticBasis, Get(c.normalized, SemanticBasis)), "")
  }

  lemma BasisResolved(n: Notation, c: Context)
    ensures LegacyBasis(n, c) <==> Basis(n, c) != "" && Basis(n, c) != "lot-native"
  {
    var p, q := Place(c.state, SemanticBasis), Place(c.normalized, SemanticBasis);
    OneInOrder(q);
    OneMore(p, [q]);
    assert [p] + [q] == [p, q];
    TextRead(n, [p, q], "", FirstKeyValue([p, q]));
    forall t | TextFrom(n, [p, q], "", t) ensures t == Basis(n, c) {
      if SemanticBasis in c.state {
        assert FirstKey([p, q], 0);
      } else if SemanticBasis in c.normalized {
        assert FirstKey([p, q], 1);
      }
    }
  }

  lemma OnlyCount(n: Notation, c: Context, f: Field)
    ensures CountFrom(n, OnlyNormal(c, f), CountOf(n, Get(c.normalized, f)))
  {
    OneInOrder(Place(c.normalized, f));
    CountRead(n, OnlyNormal(c, f), Get(c.normalized, f));
  }

  lemma OnlyNumber(n: Notation, c: Context, f: Field, default: real)
    ensures NumberFrom(n, OnlyNormal(c, f), default, FloatOr(n, Get(c.normalized, f), default))
  {
    OneInOrder(Place(c.normalized, f));
    NumberRead(n, OnlyNormal(c, f), default, Get(c.normalized, f));
  }

  lemma AuthorityResolved(n: Notation, c: Context, d: real, s: Snapshot)
    requires ResolvesAuthority(n, c, d, s)
    ensures AuthorityMeans(n, c, s)
  {
    if c.normalized != map[] {
      BasisResolved(n, c);
      OnlyCount(n, c, OpenLotCount);
      OnlyCount(n, c, ReservedExitLotCount);
      OnlyCount(n, c, SellableExecutableLotCount);
      OnlyNumber(n, c, ReservedExitQty, 0.0);
      OnlyNumber(n, c, OpenExposureQty, 0.0);
      var left := FloatOr(n, Get(c.normalized, OpenExposureQty), 0.0) - s.reservedExitQty;
      OnlyNumber(n, c, SellableExecutableQty, if left < 0.0 then 0.0 else left);
    }
  }

  // ----- The theorem -----

  /** Everything the snapshot of a context is. */
  ghost predicate Means(n: Notation, c: Context, s: Snapshot) {
    && QuantitiesMean(n, c, s) && AuthorityMeans(n, c, s) && FlagsMean(n, c, s) && EntryMeans(c, s)
    && EntryReasonMeans(n, c, s) && RecoveryMeans(n, c, s) && ExitMeans(n, c, s) && HoldingMeans(n, c, s)
  }

  /** For every context, every one of the 36 fields of the snapshot is what the first layer that has it says,
      read as its kind, or the derived default; and sell authority comes from the normalised exposure only. */
  lemma SnapshotMeans(n: Notation, c: Context, s: Snapshot)
    requires Resolve(n, c) == Some(s)
    ensures Means(n, c, s)
  {
    var d := DiagnosticRawTotal(n, c).value;
    SnapshotResolvesAuthority(n, c, d);
    SnapshotResolvesPosition(n, c, d);
    SnapshotResolvesRest(n, c, d);
    MeansFromResolved(n, c, d, s);
  }

  lemma MeansFromResolved(n: Notation, c: Context, d: real, s: Snapshot)
    requires ResolvesTo(n, c, d, s)
    ensures Means(n, c, s)
  {
    var a := ResolveSellAuthority(n, c, d);
    QuantitiesResolved(n, c, s);
    EntryResolved(n, c, s);
    AuthorityResolved(n, c, d, s);
    FlagsResolved(n, c, a, s);
    ExposureResolved(n, c, a, s);
    RecoveryResolved(n, c, a, s);
    ExitResolved(n, c, d, s);
    HoldingResolved(n, c, d, s);
    EntryReasonResolved(n, c, a, s);
  }

  // ----- What is stored -----

  /** What is stored both in the payload and in the normalised exposure is stored alike. */
  lemma {:induction false} CopiesAgree(s: Snapshot, f: Field)
    ensures StoredTop(s, f) != Null && StoredNormalized(s, f) != Null ==> StoredTop(s, f) == StoredNormalized(s, f)
  {
    match f
    case RawQtyOpen =>
    case RawTotalAssetQty =>
    case DustClassification =>
    case DustState =>
    case EntryAllowed =>
    case EffectiveFlat =>
    case EntryGateEffectiveFlat =>
    case HarmlessDustEffectiveFlat =>
    case EffectiveFlatDueToHarmlessDust =>
    case HoldingAuthorityState =>
    case NormalizedExposureActive =>
    case NormalizedExposureQty =>
    case HasExecutableExposure =>
    case HasAnyPositionResidue =>
    case HasNonExecutableResidue =>
    case HasDustOnlyRemainder =>
    case RecoveryBlocked =>
    case RecoveryBlockReason =>
    case UnresolvedOrderCount =>
    case RecoveryRequiredCount =>
    case OpenExposureQty =>
    case DustTrackingQty =>
    case OpenLotCount =>
    case DustTrackingLotCount =>
    case ReservedExitLotCount =>
    case SellableExecutableLotCount =>
    case SubmitLotCount =>
    case PositionStateLotCount =>
    case ReservedExitQty =>
    case SellableExecutableQty =>
    case ExitAllowed =>
    case ExitBlockReason =>
    case EntryBlockReason =>
    case _ =>
  }

  lemma StoredSellFields(s: Snapshot)
    ensures StoredTop(s, SellSubmitLotCount) == Number(s.sellSubmitLotCount as real)
    ensures StoredTop(s, SellQtyBasisQty) == Number(s.sellQtyBasisQty)
  {
  }

  lemma StoredSellQuantities(s: Snapshot)
    ensures StoredTop(s, SellNormalizedExposureQty) == Number(s.sellNormalizedExposureQty)
    ensures StoredTop(s, SellOpenExposureQty) == Number(s.sellOpenExposureQty)
    ensures StoredTop(s, SellDustTrackingQty) == Number(s.sellDustTrackingQty)
  {
  }

  lemma StoredSubmitFields(s: Snapshot)
    ensures StoredTop(s, PositionQty) == Number(s.positionQty)
    ensures StoredTop(s, SubmitPayloadQty) == Number(s.submitPayloadQty)
    ensures StoredNormalized(s, SubmitLotCount) == Number(s.sellSubmitLotCount as real)
    ensures StoredNormalized(s, PositionStateLotCount) == Number(s.sellSubmitLotCount as real)
    ensures StoredNormalized(s, HoldingAuthorityState) == Words(s.holdingAuthorityState)
  {
  }

  lemma StoredDustFields(s: Snapshot)
    ensures StoredNormalized(s, DustClassification) == StoredNormalized(s, DustState) == Words(s.dustClassification)
    ensures StoredNormalized(s, EntryGateEffectiveFlat) == Flag(s.entryGateEffectiveFlat)
    ensures StoredNormalized(s, HarmlessDustEffectiveFlat)
        == Flag(s.entryAllowed && s.dustClassification == "harmless_dust")
    ensures StoredNormalized(s, EffectiveFlatDueToHarmlessDust) == StoredNormalized(s, HarmlessDustEffectiveFlat)
  {
  }

  /** What is written is what is found in the stored context; the gate and the state stay. */
  lemma WrittenIsStored(n: Notation, c: Context, s: Snapshot, after: Context, f: Field)
    requires Resolve(n, c) == Some(s) && Normalize(n, c) == Some(after)
    ensures Get(after.top, f) == if StoredTop(s, f) != Null then StoredTop(s, f) else Get(c.top, f)
    ensures Get(after.normalized, f) == if StoredNormalized(s, f) != Null then StoredNormalized(s, f)
        else Get(c.normalized, f)
    ensures after.gate == c.gate && after.state == c.state
  {
    StoredReads(c, s, f);
  }

  /** There is no snapshot exactly when the payload's own raw total is a text that is not a number. */
  lemma NoSnapshotIff(n: Notation, c: Context)
    ensures Resolve(n, c).None? <==>
      exists t :: t != "" && Get(c.top, RawTotalAssetQty) == Words(t) && n.parse(t).None?
  {
  }
}
