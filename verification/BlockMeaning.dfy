/** Which block reasons a decision context has, in which order, and which of them comes first, stated over
    the context itself. */
module BlockMeaning {
  import opened Wrappers
  import opened Picking
  import opened Text
  import opened BlockReasons

  // ----- When a reason is there -----

  /** The base signal, trimmed, reads BUY. */
  predicate Buys(f: Flow) {
    f.baseSignal.Some? && Upper(Strip(f.baseSignal.value)) == "BUY"
  }

  /** The text, trimmed, is the reason. */
  predicate Says(text: Option<string>, reason: string) { text.Some? && Strip(text.value) == reason }

  predicate Filtered(filters: seq<string>, name: string) {
    exists i :: 0 <= i < |filters| && Strip(filters[i]) == name
  }

  predicate Extra(offers: seq<Offer>, layer: string, reason: string) {
    exists i :: 0 <= i < |offers| && offers[i].layer == layer && Says(offers[i].reason, reason)
  }

  predicate ByFilters(f: Flow, layer: string, reason: string) {
    || (layer == "fee_authority" && reason == "degraded" && Filtered(f.blockedFilters, "fee_authority_degraded"))
    || (layer == "strategy_filters" && reason != "fee_authority_degraded" && Filtered(f.blockedFilters, reason))
  }

  predicate ByGates(f: Flow, layer: string, reason: string) {
    || (layer == "market_regime" && f.regimeBlocks && Says(f.regimeReason, reason))
    || (layer == "candidate_regime" && f.candidateBlocks && Says(f.candidateReason, reason))
    || (layer == "position_gate" && !f.protectiveExit && !f.entryAllowed && Says(f.gateReason, reason))
  }

  /** The context blocks in this layer for this reason. A BUY may be blocked by its filters, its regimes
      and the position gate; anything by its economics and by what the caller adds. */
  predicate BlockedFor(f: Flow, layer: string, reason: string) {
    && reason != "" && reason != "none"
    && ((Buys(f) && (ByFilters(f, layer, reason) || ByGates(f, layer, reason)))
        || (layer == "pre_trade_economics" && f.economicsBlocks && Says(f.economicsReason, reason))
        || Extra(f.extra, layer, reason))
  }

  lemma BuyingIff(f: Flow)
    ensures Buying(f) <==> Buys(f)
  {
    assert Upper("HOLD")[0] == 'H';
    assert Upper("") == "";
  }

  /** The text that an offer adds under its layer. */
  predicate Offered(o: Offer, b: Block) {
    o.layer == b.layer && Says(o.reason, b.reason) && b.reason != "" && b.reason != "none"
  }

  ghost predicate SomeOffered(offers: seq<Offer>, b: Block) {
    exists i :: 0 <= i < |offers| && Offered(offers[i], b)
  }

  /** What an offer adds. */
  function Heard(o: Offer): Option<Block> {
    if o.reason.Some? && Strip(o.reason.value) != "" && Strip(o.reason.value) != "none"
    then Some(Block(o.layer, Strip(o.reason.value))) else None
  }

  lemma HeardIff(o: Offer, b: Block)
    ensures Heard(o) == Some(b) <==> Offered(o, b)
  {
  }

  lemma {:induction false} CollectIsFirsts(offers: seq<Offer>)
    ensures Collect(offers) == Firsts(Heard, offers)
  {
    if offers != [] {
      CollectIsFirsts(offers[..|offers| - 1]);
    }
  }

  lemma CollectIff(offers: seq<Offer>, b: Block)
    ensures b in Collect(offers) <==> SomeOffered(offers, b)
  {
    CollectIsFirsts(offers);
    FirstsIff(Heard, offers, b);
    if i :| 0 <= i < |offers| && Heard(offers[i]) == Some(b) {
      HeardIff(offers[i], b);
    }
    if i :| 0 <= i < |offers| && Offered(offers[i], b) {
      HeardIff(offers[i], b);
    }
  }

  lemma OfferedConcat(xs: seq<Offer>, ys: seq<Offer>, b: Block)
    ensures SomeOffered(xs + ys, b) <==> SomeOffered(xs, b) || SomeOffered(ys, b)
  {
    if i :| 0 <= i < |xs| && Offered(xs[i], b) {
      assert (xs + ys)[i] == xs[i];
    }
    if i :| 0 <= i < |ys| && Offered(ys[i], b) {
      assert (xs + ys)[|xs| + i] == ys[i];
    }
  }

  lemma OfferedWhen(condition: bool, o: Offer, b: Block)
    ensures SomeOffered(When(condition, o), b) <==> condition && Offered(o, b)
  {
    if condition {
      assert When(condition, o)[0] == o;
    }
  }

  lemma FilterOffered(raw: string, b: Block)
    ensures Offered(FilterOffer(raw), b) <==>
      && b.reason != "" && b.reason != "none"
      && (if Strip(raw) == "fee_authority_degraded" then b.layer == "fee_authority" && b.reason == "degraded"
          else b.layer == "strategy_filters" && Strip(raw) == b.reason)
  {
    assert Stripped("degraded");
    StripLaw("degraded");
  }

  lemma FiltersOffered(f: Flow, b: Block)
    ensures SomeOffered(FilterOffers(f.blockedFilters), b)
      <==> b.reason != "" && b.reason != "none" && ByFilters(f, b.layer, b.reason)
  {
    forall i | 0 <= i < |f.blockedFilters|
      ensures Offered(FilterOffers(f.blockedFilters)[i], b) <==> Offered(FilterOffer(f.blockedFilters[i]), b)
    {
    }
    if i :| 0 <= i < |f.blockedFilters| && Offered(FilterOffers(f.blockedFilters)[i], b) {
      FilterOffered(f.blockedFilters[i], b);
    }
    forall i | 0 <= i < |f.blockedFilters| {
      FilterOffered(f.blockedFilters[i], b);
    }
  }

  lemma GatesOffered(f: Flow, b: Block)
    ensures SomeOffered(GateOffers(f), b)
      <==> b.reason != "" && b.reason != "none" && Buys(f) && ByGates(f, b.layer, b.reason)
  {
    BuyingIff(f);
    var regime := When(Buying(f) && f.regimeBlocks, Offer(MARKET_REGIME, f.regimeReason));
    var candidate := When(Buying(f) && f.candidateBlocks, Offer(CANDIDATE_REGIME, f.candidateReason));
    var gate := When(Buying(f) && !f.protectiveExit && !f.entryAllowed, Offer(POSITION_GATE, f.gateReason));
    OfferedConcat(regime, candidate, b);
    OfferedConcat(regime + candidate, gate, b);
    OfferedWhen(Buying(f) && f.regimeBlocks, Offer(MARKET_REGIME, f.regimeReason), b);
    OfferedWhen(Buying(f) && f.candidateBlocks, Offer(CANDIDATE_REGIME, f.candidateReason), b);
    OfferedWhen(Buying(f) && !f.protectiveExit && !f.entryAllowed, Offer(POSITION_GATE, f.gateReason), b);
  }

  lemma ExtraOffered(extra: seq<Offer>, b: Block)
    ensures SomeOffered(extra, b) <==> b.reason != "" && b.reason != "none" && Extra(extra, b.layer, b.reason)
  {
    if i :| 0 <= i < |extra| && Offered(extra[i], b) {
      assert Says(extra[i].reason, b.reason);
    }
    if i :| 0 <= i < |extra| && extra[i].layer == b.layer && Says(extra[i].reason, b.reason) {
      assert b.reason != "" && b.reason != "none" ==> Offered(extra[i], b);
    }
  }

  /** The reasons of a context are exactly those it blocks for. */
  lemma ReasonsIff(f: Flow, b: Block)
    ensures b in Collect(Offers(f)) <==> BlockedFor(f, b.layer, b.reason)
  {
    var filters := if Buying(f) then FilterOffers(f.blockedFilters) else [];
    var economics := When(f.economicsBlocks, Offer(PRE_TRADE_ECONOMICS, f.economicsReason));
    CollectIff(Offers(f), b);
    BuyingIff(f);
    FiltersOffered(f, b);
    GatesOffered(f, b);
    OfferedWhen(f.economicsBlocks, Offer(PRE_TRADE_ECONOMICS, f.economicsReason), b);
    ExtraOffered(f.extra, b);
    OfferedConcat(filters, GateOffers(f), b);
    OfferedConcat(filters + GateOffers(f), economics, b);
    OfferedConcat(filters + GateOffers(f) + economics, f.extra, b);
  }

  // ----- In which order -----

  /** The place at which a context names a reason: first the filters in their order, then the regimes, the
      position gate and the economics, then what the caller adds. */
  predicate NamedAt(f: Flow, p: nat, b: Block) {
    var n := |f.blockedFilters|;
    && b.reason != "" && b.reason != "none"
    && (if p < n then
          && Buys(f)
          && (if Strip(f.blockedFilters[p]) == "fee_authority_degraded"
              then b == Block("fee_authority", "degraded")
              else b == Block("strategy_filters", Strip(f.blockedFilters[p])))
        else if p < n + 3 then Buys(f) && GateNames(f, p - n, b)
        else if p == n + 3 then
          b.layer == "pre_trade_economics" && f.economicsBlocks && Says(f.economicsReason, b.reason)
        else
          && p < n + 4 + |f.extra|
          && f.extra[p - n - 4].layer == b.layer && Says(f.extra[p - n - 4].reason, b.reason))
  }

  predicate GateNames(f: Flow, gate: nat, b: Block) {
    match gate
    case 0 => b.layer == "market_regime" && f.regimeBlocks && Says(f.regimeReason, b.reason)
    case 1 => b.layer == "candidate_regime" && f.candidateBlocks && Says(f.candidateReason, b.reason)
    case _ =>
      b.layer == "position_gate" && !f.protectiveExit && !f.entryAllowed && Says(f.gateReason, b.reason)
  }

  /** An offer of nothing. */
  const SILENT := Offer("", None)

  function Slot(condition: bool, o: Offer): Offer { if condition then o else SILENT }

  function FilterSlots(f: Flow): (r: seq<Offer>)
    ensures |r| == |f.blockedFilters|
    ensures forall i :: 0 <= i < |r| ==> r[i] == Slot(Buying(f), FilterOffer(f.blockedFilters[i]))
  {
    seq(|f.blockedFilters|, i requires 0 <= i < |f.blockedFilters| =>
      Slot(Buying(f), FilterOffer(f.blockedFilters[i])))
  }

  function GateSlots(f: Flow): seq<Offer> {
    [Slot(Buying(f) && f.regimeBlocks, Offer(MARKET_REGIME, f.regimeReason)),
     Slot(Buying(f) && f.candidateBlocks, Offer(CANDIDATE_REGIME, f.candidateReason)),
     Slot(Buying(f) && !f.protectiveExit && !f.entryAllowed, Offer(POSITION_GATE, f.gateReason)),
     Slot(f.economicsBlocks, Offer(PRE_TRADE_ECONOMICS, f.economicsReason))]
  }

  /** One offer for each place, silent where the context does not block. */
  function Slots(f: Flow): seq<Offer> { FilterSlots(f) + GateSlots(f) + f.extra }

  lemma SlotHeard(condition: bool, o: Offer)
    ensures Picked(Heard, [Slot(condition, o)]) == Picked(Heard, When(condition, o))
  {
    PickedStep(Heard, [], Slot(condition, o));
    PickedStep(Heard, [], o);
    assert [] + [Slot(condition, o)] == [Slot(condition, o)] && [] + [o] == [o];
  }

  lemma SlotsHeard(xs: seq<Offer>, ys: seq<Offer>, condition: bool, o: Offer)
    requires Picked(Heard, xs) == Picked(Heard, ys)
    ensures Picked(Heard, xs + [Slot(condition, o)]) == Picked(Heard, ys + When(condition, o))
  {
    SlotHeard(condition, o);
    PickedConcat(Heard, xs, [Slot(condition, o)]);
    PickedConcat(Heard, ys, When(condition, o));
  }

  lemma FourHeard(a: bool, o: Offer, b: bool, p: Offer, c: bool, q: Offer, d: bool, r: Offer, slots: seq<Offer>)
    requires slots == [Slot(a, o), Slot(b, p), Slot(c, q), Slot(d, r)]
    ensures Picked(Heard, slots) == Picked(Heard, When(a, o) + When(b, p) + When(c, q) + When(d, r))
  {
    SlotHeard(a, o);
    SlotsHeard(slots[..1], When(a, o), b, p);
    assert slots[..1] + [slots[1]] == slots[..2];
    SlotsHeard(slots[..2], When(a, o) + When(b, p), c, q);
    assert slots[..2] + [slots[2]] == slots[..3];
    SlotsHeard(slots[..3], When(a, o) + When(b, p) + When(c, q), d, r);
    assert slots[..3] + [slots[3]] == slots;
  }

  lemma GatesHeard(f: Flow)
    ensures Picked(Heard, GateSlots(f))
      == Picked(Heard, GateOffers(f) + When(f.economicsBlocks, Offer(PRE_TRADE_ECONOMICS, f.economicsReason)))
  {
    FourHeard(Buying(f) && f.regimeBlocks, Offer(MARKET_REGIME, f.regimeReason),
              Buying(f) && f.candidateBlocks, Offer(CANDIDATE_REGIME, f.candidateReason),
              Buying(f) && !f.protectiveExit && !f.entryAllowed, Offer(POSITION_GATE, f.gateReason),
              f.economicsBlocks, Offer(PRE_TRADE_ECONOMICS, f.economicsReason), GateSlots(f));
  }

  lemma FiltersHeard(f: Flow)
    ensures Picked(Heard, FilterSlots(f))
      == Picked(Heard, if Buying(f) then FilterOffers(f.blockedFilters) else [])
  {
    if Buying(f) {
      assert FilterSlots(f) == FilterOffers(f.blockedFilters);
    } else {
      PickedNothingIff(Heard, FilterSlots(f));
    }
  }

  lemma SlotsCollect(f: Flow)
    ensures Collect(Offers(f)) == Firsts(Heard, Slots(f))
  {
    var filters := if Buying(f) then FilterOffers(f.blockedFilters) else [];
    var economics := When(f.economicsBlocks, Offer(PRE_TRADE_ECONOMICS, f.economicsReason));
    FiltersHeard(f);
    GatesHeard(f);
    SameHeard(FilterSlots(f), GateSlots(f), filters, GateOffers(f) + economics, f.extra);
    Regrouped(filters, GateOffers(f), economics, f.extra);
    SameFirsts(Offers(f), Slots(f));
  }

  lemma Regrouped<T>(xs: seq<T>, ys: seq<T>, zs: seq<T>, more: seq<T>)
    ensures xs + (ys + zs) + more == xs + ys + zs + more
  {
  }

  lemma SameFirsts(xs: seq<Offer>, ys: seq<Offer>)
    requires Picked(Heard, xs) == Picked(Heard, ys)
    ensures Collect(xs) == Firsts(Heard, ys)
  {
    CollectIsFirsts(xs);
    FirstsOfPicked(Heard, xs);
    FirstsOfPicked(Heard, ys);
  }

  lemma SameHeard(xs: seq<Offer>, ys: seq<Offer>, xs': seq<Offer>, ys': seq<Offer>, more: seq<Offer>)
    requires Picked(Heard, xs) == Picked(Heard, xs') && Picked(Heard, ys) == Picked(Heard, ys')
    ensures Picked(Heard, xs + ys + more) == Picked(Heard, xs' + ys' + more)
  {
    PickedConcat(Heard, xs, ys);
    PickedConcat(Heard, xs', ys');
    PickedConcat(Heard, xs + ys, more);
    PickedConcat(Heard, xs' + ys', more);
  }

  lemma NamedIff(f: Flow, p: nat, b: Block)
    requires p < |Slots(f)|
    ensures Offered(Slots(f)[p], b) <==> NamedAt(f, p, b)
  {
    var n := |f.blockedFilters|;
    BuyingIff(f);
    if p < n {
      assert Slots(f)[p] == FilterSlots(f)[p];
      FilterOffered(f.blockedFilters[p], b);
    } else if p < n + 4 {
      assert Slots(f)[p] == GateSlots(f)[p - n];
    } else {
      assert Slots(f)[p] == f.extra[p - n - 4];
    }
  }

  lemma NamedIsHeard(f: Flow, p: nat, b: Block)
    requires p < |Slots(f)|
    ensures Heard(Slots(f)[p]) == Some(b) <==> NamedAt(f, p, b)
  {
    NamedIff(f, p, b);
    HeardIff(Slots(f)[p], b);
  }

  /** The reasons come in the order in which the context first names them. */
  lemma ReasonsInOrder(f: Flow, reasons: seq<Block>) returns (at: seq<nat>)
    requires reasons == Collect(Offers(f))
    ensures |at| == |reasons|
    ensures forall i :: 0 <= i < |at| ==> NamedAt(f, at[i], reasons[i])
    ensures forall i, j :: 0 <= i < j < |at| ==> at[i] < at[j]
    ensures forall i, p :: 0 <= i < |at| && 0 <= p < at[i] ==> !NamedAt(f, p, reasons[i])
  {
    SlotsCollect(f);
    at := FirstsPlaced(Heard, Slots(f));
    PlacesNamed(f, Slots(f), reasons, at);
  }

  lemma PlacesNamed(f: Flow, slots: seq<Offer>, reasons: seq<Block>, at: seq<nat>)
    requires slots == Slots(f) && FirstPlaces(Heard, slots, reasons, at)
    ensures forall i :: 0 <= i < |at| ==> NamedAt(f, at[i], reasons[i])
    ensures forall i, p :: 0 <= i < |at| && 0 <= p < at[i] ==> !NamedAt(f, p, reasons[i])
  {
    forall i | 0 <= i < |at| ensures NamedAt(f, at[i], reasons[i]) {
      NamedIsHeard(f, at[i], reasons[i]);
    }
    forall i, p | 0 <= i < |at| && 0 <= p < at[i] ensures !NamedAt(f, p, reasons[i]) {
      NamedIsHeard(f, p, reasons[i]);
    }
  }

  // ----- Which comes first -----

  /** The layers in order of priority; every other layer comes after them. */
  lemma RankIs(layer: string)
    ensures Rank("fee_authority") == 0 && Rank("market_regime") == 1 && Rank("candidate_regime") == 2
    ensures Rank("position_gate") == 3 && Rank("strategy_filters") == 4 && Rank("pre_trade_economics") == 5
    ensures Rank("execution_order_rule") == 6 && Rank("performance_gate") == 7
    ensures Rank(layer) == 8 <==> layer !in ["fee_authority", "market_regime", "candidate_regime", "position_gate",
      "strategy_filters", "pre_trade_economics", "execution_order_rule", "performance_gate"]
  {
    PrioritiesDiffer();
  }

  lemma PrioritiesDiffer()
    ensures forall i, j :: 0 <= i < j < 8 ==> PRIORITY[i] != PRIORITY[j]
  {
  }

  // ----- Reading a written reason -----

  /** The first dot of the text parts two texts that are not blank. */
  predicate ReadsAt(text: string, k: nat, b: Block) {
    && k < |text| && text[k] == '.' && '.' !in text[..k]
    && b.layer != "" && b.reason != "" && Strip(text[..k]) == b.layer && Strip(text[k + 1..]) == b.reason
  }

  lemma ReadIsSplit(value: string, text: string, k: nat, b: Block)
    requires text == Strip(value) && ReadsAt(text, k, b)
    ensures SplitBlockReason(value) == Some(b)
  {
    DotIsNoSentinel(text);
    DotIs(text, k);
  }

  lemma DotIs(text: string, k: nat)
    requires k < |text| && text[k] == '.' && '.' !in text[..k]
    ensures DotAt(text) == k
  {
    forall j | 0 <= j < k ensures text[j] != '.' {
      assert text[j] in text[..k];
    }
  }

  /** A text is read as a reason exactly when its first dot, after trimming, parts two such texts. */
  lemma SplitIff(value: string, text: string, b: Block)
    requires text == Strip(value)
    ensures SplitBlockReason(value) == Some(b) <==> exists k: nat :: ReadsAt(text, k, b)
  {
    if k: nat :| ReadsAt(text, k, b) {
      ReadIsSplit(value, text, k, b);
    }
    if SplitBlockReason(value) == Some(b) {
      assert ReadsAt(text, DotAt(text), b);
    }
  }

  // ----- Attribution of any context -----

  /** The text says this: trimmed, neither blank nor one of the words for nothing. */
  predicate Means(text: Option<string>, x: string) {
    Says(text, x) && x != "" && Lower(x) !in ["none", "null", "-"]
  }

  predicate Silent(text: Option<string>) { text.None? || !Means(text, Strip(text.value)) }

  /** The first of the texts that says something says this. */
  predicate FirstSays(texts: seq<Option<string>>, x: string) {
    exists i :: 0 <= i < |texts| && Means(texts[i], x) && forall j :: 0 <= j < i ==> Silent(texts[j])
  }

  predicate AllSilent(texts: seq<Option<string>>) { forall i :: 0 <= i < |texts| ==> Silent(texts[i]) }

  function LayerText(b: Option<Block>): Option<string> { if b.Some? then Some(b.value.layer) else None }

  function ReasonText(b: Option<Block>): Option<string> { if b.Some? then Some(b.value.reason) else None }

  function LayerTexts(r: Recorded): seq<Option<string>> { [LayerText(r.primary), LayerText(r.flowPrimary)] }

  function ReasonTexts(r: Recorded): seq<Option<string>> {
    [ReasonText(r.primary), ReasonText(r.flowPrimary), r.entryBlockReason]
  }

  lemma OptionalTextIs(text: Option<string>, x: string)
    ensures OptionalText(text) == Some(x) <==> Means(text, x)
    ensures OptionalText(text).None? <==> Silent(text)
  {
  }

  function ExplicitLayer(r: Recorded): Option<string> { OrElse(LayerOf(r.primary), LayerOf(r.flowPrimary)) }

  function ExplicitReason(r: Recorded): Option<string> {
    OrElse(ReasonOf(r.primary), OrElse(ReasonOf(r.flowPrimary), OptionalText(r.entryBlockReason)))
  }

  lemma ExplicitLayerIs(r: Recorded, x: string)
    ensures FirstSays(LayerTexts(r), x) ==> ExplicitLayer(r) == Some(x)
    ensures AllSilent(LayerTexts(r)) ==> ExplicitLayer(r).None?
  {
    var texts := LayerTexts(r);
    forall i | 0 <= i < |texts|
      ensures OptionalText(texts[i]) == Some(x) <==> Means(texts[i], x)
      ensures OptionalText(texts[i]).None? <==> Silent(texts[i])
    {
      OptionalTextIs(texts[i], x);
    }
    assert LayerOf(r.primary) == OptionalText(texts[0]) && LayerOf(r.flowPrimary) == OptionalText(texts[1]);
  }

  lemma ExplicitReasonIs(r: Recorded, x: string)
    ensures FirstSays(ReasonTexts(r), x) ==> ExplicitReason(r) == Some(x)
    ensures AllSilent(ReasonTexts(r)) ==> ExplicitReason(r).None?
  {
    var texts := ReasonTexts(r);
    forall i | 0 <= i < |texts|
      ensures OptionalText(texts[i]) == Some(x) <==> Means(texts[i], x)
      ensures OptionalText(texts[i]).None? <==> Silent(texts[i])
    {
      OptionalTextIs(texts[i], x);
    }
    assert ReasonOf(r.primary) == OptionalText(texts[0]) && ReasonOf(r.flowPrimary) == OptionalText(texts[1]);
    assert OptionalText(r.entryBlockReason) == OptionalText(texts[2]);
  }

  lemma ItemSettles(item: string)
    ensures NormalizeItem(item).Some? ==> NormalizeItem(NormalizeItem(item).value) == NormalizeItem(item)
  {
    if SplitBlockReason(item).Some? {
      var b := SplitBlockReason(item).value;
      SplitLayerIsPlain(item);
      var inner := Strip(item);
      StripLaw(inner[DotAt(inner) + 1..]);
      PlainLayerSplits(b);
    }
  }

  /** The reasons of a context are those of its own list and of the nested list, read as one. */
  lemma ReadTogether(r: Recorded, own: seq<string>, nested: seq<string>)
    requires own == NormalizeAll(r.all) && nested == NormalizeAll(r.flowAll)
    ensures (if nested != [] then NormalizeAll(own + nested) else own) == NormalizeAll(r.all + r.flowAll)
  {
    assert Settles(NormalizeItem) by {
      forall item
        ensures NormalizeItem(item).Some? ==> NormalizeItem(NormalizeItem(item).value) == NormalizeItem(item)
      {
        ItemSettles(item);
      }
    }
    FirstsTogether(NormalizeItem, r.all, r.flowAll);
    if nested == [] {
      assert own + nested == own;
      FirstsAgain(NormalizeItem, r.all);
    }
  }

  /** A context that names a layer and a reason is attributed to them: its own primary block first, the
      nested one next, and for the reason the entry block reason last. It is in conflict with its list
      exactly when the list has another primary block. */
  lemma AttributedExplicit(r: Recorded, a: Attributed, read: seq<string>, layer: string, reason: string)
    requires a == Attribute(r) && read == NormalizeAll(r.all + r.flowAll)
    requires FirstSays(LayerTexts(r), layer) && FirstSays(ReasonTexts(r), reason)
    ensures a.layer == layer && a.reason == reason
    ensures a.all == if read == [] then [layer + "." + reason] else read
    ensures a.conflict <==> Primary(ParseAll(read)) !in [None, Some(Block(layer, reason))]
  {
    ReadTogether(r, NormalizeAll(r.all), NormalizeAll(r.flowAll));
    ExplicitLayerIs(r, layer);
    ExplicitReasonIs(r, reason);
  }

  /** Otherwise it is attributed to the primary block of its list, or to none. */
  lemma AttributedDerived(r: Recorded, a: Attributed, read: seq<string>)
    requires a == Attribute(r) && read == NormalizeAll(r.all + r.flowAll)
    requires AllSilent(LayerTexts(r)) || AllSilent(ReasonTexts(r))
    ensures a.all == read && !a.conflict
    ensures
      match Primary(ParseAll(read))
      case None => a.layer == "none" && a.reason == "none"
      case Some(p) => a.layer == p.layer && a.reason == p.reason
  {
    ReadTogether(r, NormalizeAll(r.all), NormalizeAll(r.flowAll));
    ExplicitLayerIs(r, "");
    ExplicitReasonIs(r, "");
  }
}
