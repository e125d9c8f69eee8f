/** Block reasons: written as `layer.reason` strings by the decision contract, parsed back by the
    attribution, and reduced to one primary block on both sides. */
module BlockReasons {
  import opened Wrappers
  import opened Picking
  import opened Text

  datatype Block = Block(layer: string, reason: string)

  const FEE_AUTHORITY := "fee_authority"
  const MARKET_REGIME := "market_regime"
  const CANDIDATE_REGIME := "candidate_regime"
  const POSITION_GATE := "position_gate"
  const STRATEGY_FILTERS := "strategy_filters"
  const PRE_TRADE_ECONOMICS := "pre_trade_economics"
  const EXECUTION_ORDER_RULE := "execution_order_rule"
  const PERFORMANCE_GATE := "performance_gate"

  const PRIORITY := [FEE_AUTHORITY, MARKET_REGIME, CANDIDATE_REGIME, POSITION_GATE, STRATEGY_FILTERS,
                     PRE_TRADE_ECONOMICS, EXECUTION_ORDER_RULE, PERFORMANCE_GATE]

  // ----- Collecting reasons -----

  /** A reason as a caller offers it: any text, or nothing. */
  datatype Offer = Offer(layer: string, reason: Option<string>)

  function TextOf(value: Option<string>): string {
    if value.Some? then Strip(value.value) else ""
  }

  /** Adds an offer unless it is blank, "none", or already there. */
  function Candidate(reasons: seq<Block>, o: Offer): seq<Block> {
    var text := TextOf(o.reason);
    if text == "" || text == "none" || Block(o.layer, text) in reasons then reasons
    else reasons + [Block(o.layer, text)]
  }

  function Collect(offers: seq<Offer>): seq<Block> {
    if offers == [] then [] else Candidate(Collect(offers[..|offers| - 1]), offers[|offers| - 1])
  }

  /** What a decision context says about blocking. A missing field of the context is `None`. */
  datatype Flow = Flow(
    baseSignal: Option<string>,
    blockedFilters: seq<string>,
    regimeBlocks: bool, regimeReason: Option<string>,
    candidateBlocks: bool, candidateReason: Option<string>,
    protectiveExit: bool, entryAllowed: bool, gateReason: Option<string>,
    economicsBlocks: bool, economicsReason: Option<string>,
    extra: seq<Offer>)

  predicate Buying(f: Flow) {
    var text := TextOf(f.baseSignal);
    Upper(if text == "" then "HOLD" else text) == "BUY"
  }

  function FilterOffer(raw: string): Offer {
    if Strip(raw) == "fee_authority_degraded" then Offer(FEE_AUTHORITY, Some("degraded"))
    else Offer(STRATEGY_FILTERS, Some(raw))
  }

  function FilterOffers(filters: seq<string>): (r: seq<Offer>)
    ensures |r| == |filters|
    ensures forall i :: 0 <= i < |r| ==> r[i] == FilterOffer(filters[i])
  {
    seq(|filters|, i requires 0 <= i < |filters| => FilterOffer(filters[i]))
  }

  /** What the regimes and the position gate offer. */
  function GateOffers(f: Flow): seq<Offer> {
    When(Buying(f) && f.regimeBlocks, Offer(MARKET_REGIME, f.regimeReason))
    + When(Buying(f) && f.candidateBlocks, Offer(CANDIDATE_REGIME, f.candidateReason))
    + When(Buying(f) && !f.protectiveExit && !f.entryAllowed, Offer(POSITION_GATE, f.gateReason))
  }

  /** Everything that is offered, in the order the contract looks. */
  function Offers(f: Flow): seq<Offer> {
    (if Buying(f) then FilterOffers(f.blockedFilters) else [])
    + GateOffers(f)
    + When(f.economicsBlocks, Offer(PRE_TRADE_ECONOMICS, f.economicsReason))
    + f.extra
  }

  method AppendCandidate(reasons: seq<Block>, offer: Offer) returns (after: seq<Block>)
    ensures after == Candidate(reasons, offer)
  {
    after := reasons;
    var text := TextOf(offer.reason);
    if text != "" && text != "none" && Block(offer.layer, text) !in reasons {
      after := reasons + [Block(offer.layer, text)];
    }
  }

  method CollectOffers(offers: seq<Offer>) returns (reasons: seq<Block>)
    ensures reasons == Collect(offers)
  {
    reasons := [];
    for i := 0 to |offers|
      invariant reasons == Collect(offers[..i])
    {
      assert offers[..i + 1][..i] == offers[..i];
      reasons := AppendCandidate(reasons, offers[i]);
    }
    assert offers[..|offers|] == offers;
  }

  method BuildBlockReasons(f: Flow) returns (reasons: seq<Block>, primary: Option<Block>)
    ensures reasons == Collect(Offers(f))
    ensures primary == Primary(reasons)
  {
    reasons := CollectOffers(Offers(f));
    primary := SelectPrimaryBlock(reasons);
  }

  // ----- The primary block -----

  /** Position in the priority list; unlisted layers rank last. */
  function Rank(layer: string): nat { RankFrom(layer, 0) }

  function RankFrom(layer: string, i: nat): (r: nat)
    requires i <= |PRIORITY|
    ensures i <= r <= |PRIORITY|
    ensures r < |PRIORITY| ==> PRIORITY[r] == layer
    ensures forall j :: i <= j < r ==> PRIORITY[j] != layer
    decreases |PRIORITY| - i
  {
    if i == |PRIORITY| || PRIORITY[i] == layer then i else RankFrom(layer, i + 1)
  }

  function Ranks(reasons: seq<Block>): (r: seq<nat>)
    ensures |r| == |reasons|
    ensures forall i :: 0 <= i < |r| ==> r[i] == Rank(reasons[i].layer)
  {
    seq(|reasons|, i requires 0 <= i < |reasons| => Rank(reasons[i].layer))
  }

  /** Index of the first minimal element. */
  function FirstMin(ranks: seq<nat>): (k: nat)
    requires ranks != []
    ensures k < |ranks|
    ensures forall j :: 0 <= j < |ranks| ==> ranks[k] <= ranks[j]
    ensures forall j :: 0 <= j < k ==> ranks[k] < ranks[j]
  {
    if |ranks| == 1 then 0 else
      var k := FirstMin(ranks[..|ranks| - 1]);
      if ranks[|ranks| - 1] < ranks[k] then |ranks| - 1 else k
  }

  /** The first reason of minimal rank. */
  function Primary(reasons: seq<Block>): Option<Block> {
    if reasons == [] then None else Some(reasons[FirstMin(Ranks(reasons))])
  }

  lemma PrimaryUnique(reasons: seq<Block>, k: nat)
    requires k < |reasons|
    requires forall j :: 0 <= j < |reasons| ==> Rank(reasons[k].layer) <= Rank(reasons[j].layer)
    requires forall j :: 0 <= j < k ==> Rank(reasons[k].layer) < Rank(reasons[j].layer)
    ensures Primary(reasons) == Some(reasons[k])
  {
    var p := FirstMin(Ranks(reasons));
    assert Ranks(reasons)[p] == Rank(reasons[p].layer) && Ranks(reasons)[k] == Rank(reasons[k].layer);
    assert k == p;
  }

  /** The search by layer: every reason is tried against each layer in priority order. */
  method SelectPrimaryBlock(reasons: seq<Block>) returns (primary: Option<Block>)
    ensures primary == Primary(reasons)
  {
    if reasons == [] {
      return None;
    }
    for r := 0 to |PRIORITY|
      invariant forall j :: 0 <= j < |reasons| ==> Rank(reasons[j].layer) >= r
    {
      for i := 0 to |reasons|
        invariant forall j :: 0 <= j < i ==> reasons[j].layer != PRIORITY[r]
      {
        if reasons[i].layer == PRIORITY[r] {
          assert Rank(reasons[i].layer) == r;
          forall j | 0 <= j < i ensures r < Rank(reasons[j].layer) {
            assert Rank(reasons[j].layer) != r;
          }
          PrimaryUnique(reasons, i);
          return Some(reasons[i]);
        }
      }
      forall j | 0 <= j < |reasons| ensures Rank(reasons[j].layer) >= r + 1 {
        assert Rank(reasons[j].layer) != r;
      }
    }
    PrimaryUnique(reasons, 0);
    return Some(reasons[0]);
  }

  // ----- Writing and parsing one reason -----

  function Format(b: Block): string { b.layer + "." + b.reason }

  function Formats(reasons: seq<Block>): (r: seq<string>)
    ensures |r| == |reasons|
    ensures forall i :: 0 <= i < |r| ==> r[i] == Format(reasons[i])
  {
    seq(|reasons|, i requires 0 <= i < |reasons| => Format(reasons[i]))
  }

  predicate Sentinel(text: string) { Lower(text) in {"none", "null", "-"} }

  function DotAt(s: string): (k: nat)
    ensures k <= |s|
    ensures k < |s| ==> s[k] == '.'
    ensures forall j :: 0 <= j < k ==> s[j] != '.'
  {
    if s == [] || s[0] == '.' then 0 else 1 + DotAt(s[1..])
  }

  /** Splits at the first dot; `None` for blanks, sentinels, and texts without two non-blank parts. */
  function SplitBlockReason(value: string): Option<Block> {
    var text := Strip(value);
    var k := DotAt(text);
    if text == "" || Sentinel(text) || k == |text| then None
    else
      var layer := Strip(text[..k]);
      var reason := Strip(text[k + 1..]);
      if layer == "" || reason == "" then None else Some(Block(layer, reason))
  }

  /** A layer that survives the trip through text. */
  predicate Plain(layer: string) {
    layer != [] && Stripped(layer) && '.' !in layer
  }

  lemma {:induction false} StripRightSubset(s: string)
    ensures forall c :: c in StripRight(s) ==> c in s
  {
    if s != [] && IsSpace(s[|s| - 1]) {
      StripRightSubset(s[..|s| - 1]);
    }
  }

  lemma {:induction false} StripSubset(s: string)
    ensures forall c :: c in Strip(s) ==> c in s
  {
    StripRightSubset(StripLeft(s));
    StripLeftSubset(s);
  }

  lemma {:induction false} StripLeftSubset(s: string)
    ensures forall c :: c in StripLeft(s) ==> c in s
  {
    if s != [] && IsSpace(s[0]) {
      StripLeftSubset(s[1..]);
    }
  }

  lemma DotIsNoSentinel(text: string)
    requires '.' in text
    ensures !Sentinel(text)
  {
    var i :| 0 <= i < |text| && text[i] == '.';
    assert Lower(text)[i] == '.';
    assert '.' !in "none" && '.' !in "null" && '.' !in "-";
  }

  lemma PlainLayerSplits(b: Block)
    requires b.reason != [] && Stripped(b.reason) && Plain(b.layer)
    ensures SplitBlockReason(Format(b)) == Some(b)
  {
    var text := Format(b);
    assert text[0] == b.layer[0] && text[|text| - 1] == b.reason[|b.reason| - 1];
    StripLaw(text);
    assert text[|b.layer|] == '.';
    DotIsNoSentinel(text);
    assert DotAt(text) == |b.layer|;
    assert text[..|b.layer|] == b.layer && text[|b.layer| + 1..] == b.reason;
    StripLaw(b.layer);
    StripLaw(b.reason);
  }

  lemma SplitLayerIsPlain(text: string)
    requires SplitBlockReason(text).Some?
    ensures Plain(SplitBlockReason(text).value.layer)
  {
    var inner := Strip(text);
    var head := inner[..DotAt(inner)];
    StripLaw(head);
    StripSubset(head);
  }

  /** A collected reason parses back to itself exactly when its layer is plain. */
  lemma SplitRoundTripIff(b: Block)
    requires b.reason != [] && Stripped(b.reason)
    ensures SplitBlockReason(Format(b)) == Some(b) <==> Plain(b.layer)
  {
    if Plain(b.layer) {
      PlainLayerSplits(b);
    } else if SplitBlockReason(Format(b)).Some? {
      SplitLayerIsPlain(Format(b));
    }
  }

  // ----- Parsing a list of reasons -----

  function NormalizeItem(item: string): Option<string> {
    match SplitBlockReason(item) case None => None case Some(b) => Some(Format(b))
  }

  /** The readable items, rewritten, each once, in order of first appearance. */
  function NormalizeAll(items: seq<string>): seq<string> { Firsts(NormalizeItem, items) }

  method NormalizeAllBlockReasons(items: seq<string>) returns (normalized: seq<string>)
    ensures normalized == NormalizeAll(items)
  {
    normalized := CollectFirsts(NormalizeItem, items);
  }

  function ParseAll(items: seq<string>): seq<Block> { Picked(SplitBlockReason, items) }

  /** Reasons as the contract collects them, under plain layers. */
  ghost predicate Collected(reasons: seq<Block>) {
    && (forall i :: 0 <= i < |reasons| ==>
          Plain(reasons[i].layer) && reasons[i].reason != [] && Stripped(reasons[i].reason)
              && reasons[i].reason != "none")
    && Distinct(reasons)
  }

  /** Every reason parses back to itself, and no two are the same. */
  ghost predicate Readable(reasons: seq<Block>) {
    && (forall i :: 0 <= i < |reasons| ==> ParsesBack(reasons[i]))
    && Distinct(reasons)
  }

  predicate ParsesBack(b: Block) {
    SplitBlockReason(Format(b)) == Some(b)
  }

  lemma CollectedReadable(reasons: seq<Block>)
    requires Collected(reasons)
    ensures Readable(reasons)
  {
    forall i | 0 <= i < |reasons| ensures ParsesBack(reasons[i]) {
      PlainLayerSplits(reasons[i]);
    }
  }

  /** Two reasons that parse back are written differently. */
  lemma FormatInjective(b: Block, c: Block)
    requires ParsesBack(b) && ParsesBack(c) && b != c
    ensures Format(b) != Format(c)
  {
  }

  lemma TidyFormat(b: Block)
    requires ParsesBack(b)
    ensures NormalizeItem(Format(b)) == Some(Format(b))
  {
  }

  lemma FormatsDistinct(reasons: seq<Block>)
    requires Readable(reasons)
    ensures Distinct(Formats(reasons)) && Holds(NormalizeItem, Formats(reasons), Formats(reasons))
  {
    forall i, j | 0 <= i < j < |reasons| ensures Format(reasons[i]) != Format(reasons[j]) {
      FormatInjective(reasons[i], reasons[j]);
    }
    forall i | 0 <= i < |reasons| ensures NormalizeItem(Format(reasons[i])) == Some(Format(reasons[i])) {
      TidyFormat(reasons[i]);
    }
  }

  /** The written list parses back to the reasons in order. */
  lemma ListParses(reasons: seq<Block>)
    requires Readable(reasons)
    ensures ParseAll(Formats(reasons)) == reasons
  {
    forall i | 0 <= i < |reasons| ensures SplitBlockReason(Format(reasons[i])) == Some(reasons[i]) {
      assert ParsesBack(reasons[i]);
    }
    HeldIsPicked(SplitBlockReason, Formats(reasons), reasons);
  }

  /** The written list normalises to itself. */
  lemma ListNormalizes(reasons: seq<Block>)
    requires Readable(reasons)
    ensures NormalizeAll(Formats(reasons)) == Formats(reasons)
  {
    FormatsDistinct(reasons);
    DistinctAreFirsts(NormalizeItem, Formats(reasons), Formats(reasons));
  }

  /** Reading it a second time adds nothing. */
  lemma RepeatAddsNothing(reasons: seq<Block>, written: seq<string>)
    requires Readable(reasons) && written == Formats(reasons)
    ensures NormalizeAll(written + written) == written
  {
    FormatsDistinct(reasons);
    ListNormalizes(reasons);
    KnownAddsNothing(NormalizeItem, written, written, written);
  }

  lemma {:induction false} CollectIsCollected(offers: seq<Offer>)
    requires forall i :: 0 <= i < |offers| ==> Plain(offers[i].layer)
    ensures Collected(Collect(offers))
  {
    if offers != [] {
      CollectIsCollected(offers[..|offers| - 1]);
      var o := offers[|offers| - 1];
      if o.reason.Some? { StripLaw(o.reason.value); }
    }
  }

  // ----- The attribution of a contract's context -----

  /** The part of a stored context that the attribution reads for blocks. */
  datatype Recorded = Recorded(
    all: seq<string>, flowAll: seq<string>,
    primary: Option<Block>, flowPrimary: Option<Block>, entryBlockReason: Option<string>)

  datatype Attributed = Attributed(all: seq<string>, layer: string, reason: string, conflict: bool)

  /** The context that `apply_decision_contract` writes; the original entry block reason stays. */
  function Applied(f: Flow, entryBlockReason: Option<string>): Recorded {
    var reasons := Collect(Offers(f));
    Recorded(Formats(reasons), Formats(reasons), Primary(reasons), Primary(reasons), entryBlockReason)
  }

  /** A text that says something: not blank, not a sentinel. */
  function OptionalText(value: Option<string>): Option<string> {
    var text := TextOf(value);
    if text == "" || Sentinel(text) then None else Some(text)
  }

  function OrElse<T>(x: Option<T>, y: Option<T>): Option<T> { if x.Some? then x else y }

  function LayerOf(b: Option<Block>): Option<string> { if b.Some? then OptionalText(Some(b.value.layer)) else None }

  function ReasonOf(b: Option<Block>): Option<string> { if b.Some? then OptionalText(Some(b.value.reason)) else None }

  function Attribute(r: Recorded): Attributed {
    var own, nested := NormalizeAll(r.all), NormalizeAll(r.flowAll);
    var all := if nested != [] then NormalizeAll(own + nested) else own;
    var layer := OrElse(LayerOf(r.primary), LayerOf(r.flowPrimary));
    var reason := OrElse(ReasonOf(r.primary), OrElse(ReasonOf(r.flowPrimary), OptionalText(r.entryBlockReason)));
    var derived := Primary(ParseAll(all));
    var hasExplicit := layer.Some? && reason.Some?;
    var chosen :=
      if hasExplicit then Some(Block(layer.value, reason.value)) else derived;
    Attributed(
      if all == [] && chosen.Some? then [Format(chosen.value)] else all,
      if chosen.Some? then chosen.value.layer else "none",
      if chosen.Some? then chosen.value.reason else "none",
      hasExplicit && derived.Some? && derived != chosen)
  }

  /** The attribution reports the contract's reasons in order, its primary block, and no conflict. */
  predicate Faithful(a: Attributed, reasons: seq<Block>) {
    && a.all == Formats(reasons)
    && !a.conflict
    && match Primary(reasons)
       case None => a.layer == "none" && a.reason == "none"
       case Some(p) => a.layer == p.layer && a.reason == p.reason
  }

  lemma RecordedReasonsRead(reasons: seq<Block>)
    requires Readable(reasons)
    ensures
      var own := NormalizeAll(Formats(reasons));
      && own == Formats(reasons)
      && (if own != [] then NormalizeAll(own + own) else own) == own
      && ParseAll(own) == reasons
  {
    ListParses(reasons);
    ListNormalizes(reasons);
    RepeatAddsNothing(reasons, Formats(reasons));
  }

  lemma OptionalTextOfStripped(text: string)
    requires text != [] && Stripped(text)
    ensures OptionalText(Some(text)) == if Sentinel(text) then None else Some(text)
  {
    StripLaw(text);
  }

  lemma SomethingSaidIsNoSentinel(value: Option<string>)
    ensures OptionalText(value).Some? ==> !Sentinel(OptionalText(value).value)
  {
  }

  /** Attribution of written reasons, once they are known to parse back. */
  lemma AttributeWritten(reasons: seq<Block>, entryBlockReason: Option<string>, a: Attributed)
    requires Collected(reasons) && Readable(reasons) && reasons != []
    requires a == Attribute(Recorded(Formats(reasons), Formats(reasons), Primary(reasons), Primary(reasons),
        entryBlockReason))
    ensures a.all == Formats(reasons)
    ensures
      var p := Primary(reasons).value;
      Faithful(a, reasons) <==> Sentinel(p.layer) || !Sentinel(p.reason) || OptionalText(entryBlockReason).None?
  {
    RecordedReasonsRead(reasons);
    var p := Primary(reasons).value;
    OptionalTextOfStripped(p.layer);
    OptionalTextOfStripped(p.reason);
    SomethingSaidIsNoSentinel(entryBlockReason);
  }

  lemma AttributeNothing(entryBlockReason: Option<string>)
    ensures Faithful(Attribute(Recorded(Formats([]), Formats([]), None, None, entryBlockReason)), [])
  {
    assert Formats([]) == [];
  }

  /** For every context under plain layers: the reasons parse back in order, and the primary block is
      reported without conflict unless its reason is a sentinel word, its layer is not, and the
      context carries some other entry block reason; and then it is not. */
  lemma AttributionFaithfulIff(f: Flow, entryBlockReason: Option<string>)
    requires forall i :: 0 <= i < |f.extra| ==> Plain(f.extra[i].layer)
    ensures
      var reasons := Collect(Offers(f));
      var a := Attribute(Applied(f, entryBlockReason));
      && a.all == Formats(reasons)
      && (Faithful(a, reasons) <==>
            reasons == [] ||
            var p := Primary(reasons).value;
            Sentinel(p.layer) || !Sentinel(p.reason) || OptionalText(entryBlockReason).None?)
  {
    var reasons := Collect(Offers(f));
    OwnLayersPlain(f);
    CollectIsCollected(Offers(f));
    CollectedReadable(reasons);
    if reasons == [] {
      AttributeNothing(entryBlockReason);
    } else {
      AttributeWritten(reasons, entryBlockReason, Attribute(Applied(f, entryBlockReason)));
    }
  }

  /** The layers the contract itself uses. */
  lemma OwnLayerPlain(layer: string)
    requires layer in [FEE_AUTHORITY, MARKET_REGIME, CANDIDATE_REGIME, POSITION_GATE, STRATEGY_FILTERS,
        PRE_TRADE_ECONOMICS]
    ensures Plain(layer)
  {
  }

  lemma GateLayersPlain(f: Flow)
    ensures forall o <- GateOffers(f) :: Plain(o.layer)
  {
    forall o | o in GateOffers(f) ensures Plain(o.layer) {
      OwnLayerPlain(o.layer);
    }
  }

  lemma FilterLayersPlain(filters: seq<string>)
    ensures forall o <- FilterOffers(filters) :: Plain(o.layer)
  {
    forall o | o in FilterOffers(filters) ensures Plain(o.layer) {
      OwnLayerPlain(o.layer);
    }
  }

  /** They are plain, so only the extra offers need checking. */
  lemma OwnLayersPlain(f: Flow)
    requires forall i :: 0 <= i < |f.extra| ==> Plain(f.extra[i].layer)
    ensures forall i :: 0 <= i < |Offers(f)| ==> Plain(Offers(f)[i].layer)
  {
    GateLayersPlain(f);
    FilterLayersPlain(f.blockedFilters);
    OwnLayerPlain(PRE_TRADE_ECONOMICS);
    forall o | o in Offers(f) ensures Plain(o.layer) {
    }
  }

  /** A single block under a plain layer whose reason is a sentinel word is lost when the context says
      something else about the entry. */
  lemma SentinelReasonConflicts(f: Flow, p: Block, entryBlockReason: Option<string>)
    requires Collect(Offers(f)) == [p] && forall i :: 0 <= i < |f.extra| ==> Plain(f.extra[i].layer)
    requires !Sentinel(p.layer) && Sentinel(p.reason) && OptionalText(entryBlockReason).Some?
    ensures !Faithful(Attribute(Applied(f, entryBlockReason)), [p])
  {
    PrimaryUnique([p], 0);
    AttributionFaithfulIff(f, entryBlockReason);
  }

  const RISK_BLOCK := Block("risk", "-")

  const RISK_FLOW :=
    Flow(None, [], false, None, false, None, false, true, None, false, None, [Offer("risk", Some("-"))])

  lemma RiskCollected()
    ensures Collect(Offers(RISK_FLOW)) == [RISK_BLOCK]
  {
    assert !Buying(RISK_FLOW) by {
      assert TextOf(RISK_FLOW.baseSignal) == "" && Upper("HOLD")[0] == 'H';
    }
    assert Offers(RISK_FLOW) == RISK_FLOW.extra;
    DashStays();
    assert RISK_FLOW.extra[..0] == [];
  }

  lemma RiskIsPlain()
    ensures forall i :: 0 <= i < |RISK_FLOW.extra| ==> Plain(RISK_FLOW.extra[i].layer)
    ensures !Sentinel(RISK_BLOCK.layer) && Sentinel(RISK_BLOCK.reason)
  {
    DashStays();
    assert Plain("risk");
  }

  /** Such a context: the extra layer `risk` blocks for the reason `-`, whatever else is said. */
  lemma SentinelReasonIsLost(f: Flow, p: Block, entryBlockReason: Option<string>)
    requires f == RISK_FLOW && p == RISK_BLOCK && OptionalText(entryBlockReason).Some?
    ensures Collect(Offers(f)) == [p]
    ensures !Faithful(Attribute(Applied(f, entryBlockReason)), [p])
  {
    RiskCollected();
    RiskIsPlain();
    SentinelReasonConflicts(f, p, entryBlockReason);
  }

  const OTHER_ENTRY := Some("x")

  /** For instance when the entry is said to be blocked by `x`. */
  lemma RiskIsLost()
    ensures Collect(Offers(RISK_FLOW)) == [RISK_BLOCK]
    ensures !Faithful(Attribute(Applied(RISK_FLOW, OTHER_ENTRY)), [RISK_BLOCK])
  {
    DashStays();
    SentinelReasonIsLost(RISK_FLOW, RISK_BLOCK, OTHER_ENTRY);
  }

  lemma DashStays()
    ensures TextOf(Some("-")) == "-" && Sentinel("-") && !Sentinel("risk")
    ensures OptionalText(Some("x")) == Some("x")
  {
    StripLaw("-");
    StripLaw("x");
    assert Lower("-") == "-" && Lower("risk")[0] == 'r' && Lower("x")[0] == 'x';
  }
}
