/**
 * The quote engine: prices a list of requested placements under the discount conditions
 * the caller selected, line by line, and sums the base and discounted subtotals.
 *
 * `Quote` is the functional specification (one priced line per request, first failing
 * lookup aborts the whole quote); `ComputeQuote` is the engine's loop, proved equal to it.
 */
module QuoteEngine {
  import opened Results
  import opened RateTables

  /** One requested placement: ("Exterior" | anything else = interior, variant, months, qty). */
  datatype ItemRequest = ItemRequest(category: string, variant: string, months: int, qty: int)

  datatype LineItem = LineItem(
    typeDisplay: string,
    product: string,
    code: string,
    months: int,
    qty: int,
    unitPrice: int,
    lineTotal: int)

  datatype QuoteTotals = QuoteTotals(
    items: seq<LineItem>,
    subtotalBase: int,
    total: int,
    exteriorTier: nat,
    interiorTier: nat,
    flagsSummary: string,
    saved: int)

  const AgencyOrPsaFlag := "Agency/PSA"
  const UpfrontFlag := "Upfront (Exterior)"
  const SixPlusFlag := "6+ Buses (Exterior)"

  const AgencyOrPsaLabel := "Agency/PSA 10%"
  const UpfrontLabel := "Upfront 10% (Exterior)"
  const SixPlusLabel := "6+ Buses 10% (Exterior)"

  /** The three discount conditions, resolved once per quote. */
  datatype Conditions = Conditions(agencyOrPsa: bool, upfront: bool, sixPlus: bool)

  function Min(a: int, b: int): int {
    if a <= b then a else b
  }

  function Max(a: int, b: int): int {
    if a >= b then a else b
  }

  /** Total quantity over the requests whose category is "Exterior". */
  function ExteriorQty(reqs: seq<ItemRequest>): int {
    if reqs == [] then 0
    else (if reqs[0].category == "Exterior" then reqs[0].qty else 0) + ExteriorQty(reqs[1..])
  }

  function ResolveConditions(reqs: seq<ItemRequest>, discountChoice: string, upfrontSelected: bool): Conditions {
    Conditions(
      discountChoice == "Agency 10%" || discountChoice == "PSA 10%",
      upfrontSelected,
      ExteriorQty(reqs) >= 6)
  }

  /** How many of the three conditions hold. */
  function HeldCount(c: Conditions): nat {
    (if c.agencyOrPsa then 1 else 0) + (if c.upfront then 1 else 0) + (if c.sixPlus then 1 else 0)
  }

  /** An exterior line's tier: one step per condition that holds; the clamp at 3 never bites. */
  function ExteriorTier(c: Conditions): (t: nat)
    ensures t == HeldCount(c) && t <= 3
  {
    Min(HeldCount(c), 3)
  }

  /** An interior line's tier: 1 exactly when the Agency/PSA condition holds. */
  function InteriorTier(c: Conditions): (t: nat)
    ensures t <= 1
    ensures t == 1 <==> c.agencyOrPsa
  {
    Min(if c.agencyOrPsa then 1 else 0, 1)
  }

  /** A priced line together with what the totals need: its base unit price and its tier. */
  datatype PricedLine = PricedLine(item: LineItem, baseUnit: int, tier: nat)

  /**
   * Prices one request under conditions `c`; a missing table key aborts with that key.
   * This is the specification of the loop body `PriceItem`.
   */
  function PriceLine(req: ItemRequest, c: Conditions): Result<PricedLine, LookupError> {
    if req.category == "Exterior" then
      var tier := ExteriorTier(c);
      match ExteriorCode(req.variant, req.months)
      case Err(e) => Err(e)
      case Ok(code) =>
        if req.variant !in ExteriorRateTable then Err(KeyError(req.variant))
        else if code !in ExteriorRateTable[req.variant] then Err(KeyError(code))
        else
          var row := ExteriorRateTable[req.variant][code];
          ExteriorRowsNonIncreasing(req.variant, code);
          Ok(PricedLine(
               LineItem("Exterior", req.variant, code, req.months, req.qty, row[tier], row[tier] * req.qty),
               row[0], tier))
    else
      if req.variant !in InteriorRateTable then Err(KeyError(req.variant))
      else
        var row := InteriorRateTable[req.variant];
        var tier := InteriorTier(c);
        InteriorRowsNonIncreasing(req.variant);
        var unit := row[tier] * req.months;
        Ok(PricedLine(
             LineItem("Interior", "Interior Cards", req.variant, req.months, req.qty, unit, unit * req.qty),
             row[0] * req.months, tier))
  }

  /** Prices every request in order; the first request that fails decides the error. */
  function PriceAll(reqs: seq<ItemRequest>, c: Conditions): Result<seq<PricedLine>, LookupError>
    decreases |reqs|
  {
    if reqs == [] then Ok([])
    else
      match PriceAll(reqs[..|reqs| - 1], c)
      case Err(e) => Err(e)
      case Ok(lines) =>
        match PriceLine(reqs[|reqs| - 1], c)
        case Err(e) => Err(e)
        case Ok(line) => Ok(lines + [line])
  }

  function ItemsOf(lines: seq<PricedLine>): seq<LineItem> {
    if lines == [] then [] else ItemsOf(lines[..|lines| - 1]) + [lines[|lines| - 1].item]
  }

  function BaseSubtotal(lines: seq<PricedLine>): int {
    if lines == [] then 0
    else BaseSubtotal(lines[..|lines| - 1]) + lines[|lines| - 1].baseUnit * lines[|lines| - 1].item.qty
  }

  function DiscountedSubtotal(lines: seq<PricedLine>): int {
    if lines == [] then 0
    else DiscountedSubtotal(lines[..|lines| - 1]) + lines[|lines| - 1].item.unitPrice * lines[|lines| - 1].item.qty
  }

  /** The highest tier over the lines of one category, 0 if there is none. */
  function TierUsed(lines: seq<PricedLine>, category: string): nat {
    if lines == [] then 0
    else
      var last := lines[|lines| - 1];
      if last.item.typeDisplay == category then Max(TierUsed(lines[..|lines| - 1], category), last.tier)
      else TierUsed(lines[..|lines| - 1], category)
  }

  /** Python's `sep.join(parts)`. */
  function Join(parts: seq<string>, sep: string): string {
    if parts == [] then ""
    else if |parts| == 1 then parts[0]
    else parts[0] + sep + Join(parts[1..], sep)
  }

  function HeldLabels(c: Conditions): seq<string> {
    (if c.agencyOrPsa then [AgencyOrPsaLabel] else []) +
    (if c.upfront then [UpfrontLabel] else []) +
    (if c.sixPlus then [SixPlusLabel] else [])
  }

  /** The flags summary: held labels in fixed order, or "None"; the specification of `SummarizeFlags`. */
  function FlagsSummary(c: Conditions): string {
    var used := HeldLabels(c);
    if used == [] then "None" else Join(used, ", ")
  }

  /** The totals reported for a fully priced list of lines. */
  function TotalsOf(lines: seq<PricedLine>, c: Conditions): QuoteTotals {
    QuoteTotals(
      ItemsOf(lines),
      BaseSubtotal(lines),
      DiscountedSubtotal(lines),
      TierUsed(lines, "Exterior"),
      TierUsed(lines, "Interior"),
      FlagsSummary(c),
      BaseSubtotal(lines) - DiscountedSubtotal(lines))
  }

  /** The quote the engine must return for these inputs. */
  function Quote(reqs: seq<ItemRequest>, discountChoice: string, upfrontSelected: bool): Result<QuoteTotals, LookupError> {
    var c := ResolveConditions(reqs, discountChoice, upfrontSelected);
    match PriceAll(reqs, c)
    case Err(e) => Err(e)
    case Ok(lines) => Ok(TotalsOf(lines, c))
  }

  /** What appending one priced line does to each accumulated figure. */
  lemma AppendLine(lines: seq<PricedLine>, line: PricedLine)
    ensures ItemsOf(lines + [line]) == ItemsOf(lines) + [line.item]
    ensures BaseSubtotal(lines + [line]) == BaseSubtotal(lines) + line.baseUnit * line.item.qty
    ensures DiscountedSubtotal(lines + [line]) == DiscountedSubtotal(lines) + line.item.unitPrice * line.item.qty
    ensures TierUsed(lines + [line], "Exterior") ==
      if line.item.typeDisplay == "Exterior" then Max(TierUsed(lines, "Exterior"), line.tier) else TierUsed(lines, "Exterior")
    ensures TierUsed(lines + [line], "Interior") ==
      if line.item.typeDisplay == "Interior" then Max(TierUsed(lines, "Interior"), line.tier) else TierUsed(lines, "Interior")
  {
    assert (lines + [line])[..|lines|] == lines;
  }

  /** Once a prefix of the requests fails, the whole list fails with the same error. */
  lemma {:induction false} PriceAllKeepsError(reqs: seq<ItemRequest>, i: nat, c: Conditions)
    requires i <= |reqs| && PriceAll(reqs[..i], c).Err?
    ensures PriceAll(reqs, c) == PriceAll(reqs[..i], c)
    decreases |reqs| - i
  {
    if i < |reqs| {
      assert reqs[..i + 1][..i] == reqs[..i];
      PriceAllKeepsError(reqs, i + 1, c);
    } else {
      assert reqs[..i] == reqs;
    }
  }

  /** Pricing one more request extends the priced prefix by its line. */
  lemma PriceAllStep(reqs: seq<ItemRequest>, i: nat, c: Conditions, lines: seq<PricedLine>, line: PricedLine)
    requires i < |reqs| && PriceAll(reqs[..i], c) == Ok(lines) && PriceLine(reqs[i], c) == Ok(line)
    ensures PriceAll(reqs[..i + 1], c) == Ok(lines + [line])
  {
    assert reqs[..i + 1][..i] == reqs[..i];
  }

  /** A failing request after a priced prefix makes the whole list fail with its error. */
  lemma PriceAllStopsAt(reqs: seq<ItemRequest>, i: nat, c: Conditions)
    requires i < |reqs| && PriceAll(reqs[..i], c).Ok? && PriceLine(reqs[i], c).Err?
    ensures PriceAll(reqs, c) == Err(PriceLine(reqs[i], c).error)
  {
    assert reqs[..i + 1][..i] == reqs[..i];
    PriceAllKeepsError(reqs, i + 1, c);
  }

  /**
   * The body of the engine's loop: prices one request, reading the conditions from the
   * `flags` list the engine built.
   */
  method PriceItem(req: ItemRequest, flags: seq<string>, ghost c: Conditions) returns (res: Result<PricedLine, LookupError>)
    requires (AgencyOrPsaFlag in flags) == c.agencyOrPsa
    requires (UpfrontFlag in flags) == c.upfront
    requires (SixPlusFlag in flags) == c.sixPlus
    ensures res == PriceLine(req, c)
    ensures res.Ok? ==> res.value.item.qty == req.qty
    ensures res.Ok? ==> (res.value.item.typeDisplay == "Exterior" <==> req.category == "Exterior")
    ensures res.Ok? ==> (res.value.item.typeDisplay == "Interior" <==> req.category != "Exterior")
  {
    if req.category == "Exterior" {
      var tier := 0;
      if AgencyOrPsaFlag in flags { tier := tier + 1; }
      if UpfrontFlag in flags { tier := tier + 1; }
      if SixPlusFlag in flags { tier := tier + 1; }
      tier := Min(tier, 3);
      var codeResult := ExteriorCode(req.variant, req.months);
      if codeResult.Err? {
        return Err(codeResult.error);
      }
      var code := codeResult.value;
      if req.variant !in ExteriorRateTable {
        return Err(KeyError(req.variant));
      }
      if code !in ExteriorRateTable[req.variant] {
        return Err(KeyError(code));
      }
      var row := ExteriorRateTable[req.variant][code];
      ExteriorRowsNonIncreasing(req.variant, code);
      var baseUnit := row[0];
      var chosenUnit := row[tier];
      res := Ok(PricedLine(
        LineItem("Exterior", req.variant, code, req.months, req.qty, chosenUnit, chosenUnit * req.qty),
        baseUnit, tier));
    } else {
      var tier := if AgencyOrPsaFlag in flags then 1 else 0;
      tier := Min(tier, 1);
      if req.variant !in InteriorRateTable {
        return Err(KeyError(req.variant));
      }
      InteriorRowsNonIncreasing(req.variant);
      var perMonth := InteriorRateTable[req.variant][tier];
      var baseUnit := InteriorRateTable[req.variant][0] * req.months;
      var chosenUnit := perMonth * req.months;
      res := Ok(PricedLine(
        LineItem("Interior", "Interior Cards", req.variant, req.months, req.qty, chosenUnit, chosenUnit * req.qty),
        baseUnit, tier));
    }
  }

  /** `Quote` in terms of the priced lines of its requests. */
  lemma QuoteOfPriced(reqs: seq<ItemRequest>, discountChoice: string, upfrontSelected: bool, priced: Result<seq<PricedLine>, LookupError>)
    requires priced == PriceAll(reqs, ResolveConditions(reqs, discountChoice, upfrontSelected))
    ensures Quote(reqs, discountChoice, upfrontSelected) ==
      match priced
      case Err(e) => Err(e)
      case Ok(lines) => Ok(TotalsOf(lines, ResolveConditions(reqs, discountChoice, upfrontSelected)))
  {
  }

  /** The engine's flags summary: the labels of the conditions that hold, or "None". */
  method SummarizeFlags(flags: seq<string>, upfrontSelected: bool, sixPlus: bool, ghost c: Conditions)
    returns (flagsSummary: string)
    requires (AgencyOrPsaFlag in flags) == c.agencyOrPsa
    requires upfrontSelected == c.upfront && sixPlus == c.sixPlus
    ensures flagsSummary == FlagsSummary(c)
  {
    var flagsUsed: seq<string> := [];
    if AgencyOrPsaFlag in flags { flagsUsed := flagsUsed + [AgencyOrPsaLabel]; }
    if upfrontSelected { flagsUsed := flagsUsed + [UpfrontLabel]; }
    if sixPlus { flagsUsed := flagsUsed + [SixPlusLabel]; }
    assert flagsUsed == HeldLabels(c);
    flagsSummary := if |flagsUsed| > 0 then Join(flagsUsed, ", ") else "None";
  }

  /** The engine: resolves the conditions, then prices and accumulates request by request. */
  method ComputeQuote(itemsSpec: seq<ItemRequest>, discountChoice: string, upfrontSelected: bool)
    returns (r: Result<QuoteTotals, LookupError>)
    ensures r == Quote(itemsSpec, discountChoice, upfrontSelected)
  {
    var totalExteriorQty := ExteriorQty(itemsSpec);
    var sixPlus := totalExteriorQty >= 6;

    var flags: seq<string> := [];
    if discountChoice == "Agency 10%" || discountChoice == "PSA 10%" { flags := flags + [AgencyOrPsaFlag]; }
    if upfrontSelected { flags := flags + [UpfrontFlag]; }
    if sixPlus { flags := flags + [SixPlusFlag]; }

    ghost var c := ResolveConditions(itemsSpec, discountChoice, upfrontSelected);
    assert (AgencyOrPsaFlag in flags) == c.agencyOrPsa;
    assert (UpfrontFlag in flags) == c.upfront;
    assert (SixPlusFlag in flags) == c.sixPlus;

    var items: seq<LineItem> := [];
    var baseSubtotal := 0;
    var discountedSubtotal := 0;
    var usedTierExt := 0;
    var usedTierInt := 0;
    ghost var lines: seq<PricedLine> := [];

    for i := 0 to |itemsSpec|
      invariant PriceAll(itemsSpec[..i], c) == Ok(lines)
      invariant items == ItemsOf(lines)
      invariant baseSubtotal == BaseSubtotal(lines)
      invariant discountedSubtotal == DiscountedSubtotal(lines)
      invariant usedTierExt == TierUsed(lines, "Exterior")
      invariant usedTierInt == TierUsed(lines, "Interior")
    {
      var req := itemsSpec[i];
      var priced := PriceItem(req, flags, c);
      if priced.Err? {
        PriceAllStopsAt(itemsSpec, i, c);
        QuoteOfPriced(itemsSpec, discountChoice, upfrontSelected, Err(priced.error));
        return Err(priced.error);
      }
      var line := priced.value;
      baseSubtotal := baseSubtotal + line.baseUnit * req.qty;
      discountedSubtotal := discountedSubtotal + line.item.unitPrice * req.qty;
      items := items + [line.item];
      if req.category == "Exterior" {
        usedTierExt := Max(usedTierExt, line.tier);
      } else {
        usedTierInt := Max(usedTierInt, line.tier);
      }
      AppendLine(lines, line);
      PriceAllStep(itemsSpec, i, c, lines, line);
      lines := lines + [line];
    }
    assert itemsSpec[..|itemsSpec|] == itemsSpec;

    var flagsSummary := SummarizeFlags(flags, upfrontSelected, sixPlus, c);

    var saved := baseSubtotal - discountedSubtotal;
    var totals := QuoteTotals(items, baseSubtotal, discountedSubtotal, usedTierExt, usedTierInt, flagsSummary, saved);
    assert totals == TotalsOf(lines, c);
    QuoteOfPriced(itemsSpec, discountChoice, upfrontSelected, Ok(lines));
    r := Ok(totals);
  }
}
