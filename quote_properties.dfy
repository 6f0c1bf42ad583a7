/**
 * What the quote engine promises, proved about its specification `Quote`
 * (and so, through `ComputeQuote`'s postcondition, about the engine itself).
 */
module QuoteProperties {
  import opened Results
  import opened Decimal
  import opened RateTables
  import opened QuoteEngine

  // ---------- priced lines ----------

  lemma {:induction false} ItemsOfAt(lines: seq<PricedLine>)
    ensures |ItemsOf(lines)| == |lines|
    ensures forall i :: 0 <= i < |lines| ==> ItemsOf(lines)[i] == lines[i].item
  {
    if lines != [] {
      ItemsOfAt(lines[..|lines| - 1]);
    }
  }

  /** A successful pricing has one line per request, each the pricing of that request. */
  lemma {:induction false} PriceAllLines(reqs: seq<ItemRequest>, c: Conditions)
    requires PriceAll(reqs, c).Ok?
    ensures |PriceAll(reqs, c).value| == |reqs|
    ensures forall i :: 0 <= i < |reqs| ==> PriceLine(reqs[i], c) == Ok(PriceAll(reqs, c).value[i])
  {
    if reqs != [] {
      var init := reqs[..|reqs| - 1];
      PriceAllLines(init, c);
      forall i | 0 <= i < |reqs| - 1
        ensures PriceLine(reqs[i], c) == Ok(PriceAll(reqs, c).value[i])
      {
        assert reqs[i] == init[i];
      }
    }
  }

  /** Pricing succeeds exactly when every request can be priced. */
  lemma {:induction false} PriceAllOkIff(reqs: seq<ItemRequest>, c: Conditions)
    ensures PriceAll(reqs, c).Ok? <==> forall i :: 0 <= i < |reqs| ==> PriceLine(reqs[i], c).Ok?
  {
    if reqs != [] {
      var init := reqs[..|reqs| - 1];
      PriceAllOkIff(init, c);
      if forall i :: 0 <= i < |reqs| ==> PriceLine(reqs[i], c).Ok? {
        assert forall i :: 0 <= i < |init| ==> init[i] == reqs[i];
      } else if PriceAll(reqs, c).Ok? {
        PriceAllLines(reqs, c);
      }
    }
  }

  // ---------- which requests can be priced ----------

  /** A request the catalog can price: a known product with an allowed length, or a known size. */
  predicate Priceable(req: ItemRequest) {
    if req.category == "Exterior" then
      req.variant in ExteriorRateTable && req.months in ExteriorAllowedMonths[req.variant]
    else
      req.variant in InteriorRateTable
  }

  /** The key whose lookup fails for a request that cannot be priced. */
  function MissingKey(req: ItemRequest): string {
    if req.category == "Exterior" && req.variant in ExteriorPrefixes then
      CodeString(ExteriorPrefixes[req.variant], req.months)
    else
      req.variant
  }

  /** A request prices exactly when it is priceable; otherwise it fails on its missing key. */
  lemma PriceLineOkIff(req: ItemRequest, c: Conditions)
    ensures PriceLine(req, c).Ok? <==> Priceable(req)
    ensures !Priceable(req) ==> PriceLine(req, c) == Err(KeyError(MissingKey(req)))
  {
    ExteriorProductsAgree();
    if req.category == "Exterior" && req.variant in ExteriorRateTable {
      ExteriorCodeInTableIff(req.variant, req.months);
    }
  }

  /** A quote succeeds exactly when every one of its requests is priceable. */
  lemma QuoteSucceedsIff(reqs: seq<ItemRequest>, discountChoice: string, upfrontSelected: bool)
    ensures Quote(reqs, discountChoice, upfrontSelected).Ok? <==>
      forall i :: 0 <= i < |reqs| ==> Priceable(reqs[i])
  {
    var c := ResolveConditions(reqs, discountChoice, upfrontSelected);
    PriceAllOkIff(reqs, c);
    forall i | 0 <= i < |reqs| {
      PriceLineOkIff(reqs[i], c);
    }
  }

  /** A quote fails, as a whole, with the missing key of its first unpriceable request. */
  lemma QuoteFailsAtFirstUnpriceable(reqs: seq<ItemRequest>, discountChoice: string, upfrontSelected: bool, i: nat)
    requires i < |reqs| && !Priceable(reqs[i])
    requires forall j :: 0 <= j < i ==> Priceable(reqs[j])
    ensures Quote(reqs, discountChoice, upfrontSelected) == Err(KeyError(MissingKey(reqs[i])))
  {
    var c := ResolveConditions(reqs, discountChoice, upfrontSelected);
    var prefix := reqs[..i];
    forall j | 0 <= j < |prefix| ensures PriceLine(prefix[j], c).Ok? {
      PriceLineOkIff(prefix[j], c);
    }
    PriceAllOkIff(prefix, c);
    PriceLineOkIff(reqs[i], c);
    PriceAllStopsAt(reqs, i, c);
    QuoteOfPriced(reqs, discountChoice, upfrontSelected, PriceAll(reqs, c));
  }

  // ---------- the line items ----------

  /**
   * The line the engine reports for `req`: same months and quantity, total = unit price x qty;
   * an exterior line carries the product, its duration code and the row price at the
   * exterior tier; any other line is an interior card priced per month at the interior tier.
   */
  predicate ExpectedLine(req: ItemRequest, item: LineItem, c: Conditions) {
    item.months == req.months && item.qty == req.qty && item.lineTotal == item.unitPrice * req.qty &&
    if req.category == "Exterior" then
      item.typeDisplay == "Exterior" && item.product == req.variant &&
      ExteriorCode(req.variant, req.months) == Ok(item.code) &&
      req.variant in ExteriorRateTable && item.code in ExteriorRateTable[req.variant] &&
      |ExteriorRateTable[req.variant][item.code]| == 4 &&
      item.unitPrice == ExteriorRateTable[req.variant][item.code][ExteriorTier(c)]
    else
      item.typeDisplay == "Interior" && item.product == "Interior Cards" && item.code == req.variant &&
      req.variant in InteriorRateTable && |InteriorRateTable[req.variant]| == 2 &&
      item.unitPrice == InteriorRateTable[req.variant][InteriorTier(c)] * req.months
  }

  /**
   * The undiscounted price of one unit of a request: the tier-0 entry of its exterior row,
   * or the tier-0 monthly price of its interior size times the months (0 when not priceable).
   */
  function BaseUnitPrice(req: ItemRequest): int {
    if req.category == "Exterior" then
      if req.variant in ExteriorPrefixes && req.variant in ExteriorRateTable &&
         CodeString(ExteriorPrefixes[req.variant], req.months) in ExteriorRateTable[req.variant] &&
         |ExteriorRateTable[req.variant][CodeString(ExteriorPrefixes[req.variant], req.months)]| > 0
      then ExteriorRateTable[req.variant][CodeString(ExteriorPrefixes[req.variant], req.months)][0]
      else 0
    else if req.variant in InteriorRateTable && |InteriorRateTable[req.variant]| > 0 then
      InteriorRateTable[req.variant][0] * req.months
    else 0
  }

  lemma PriceLineExpected(req: ItemRequest, c: Conditions)
    requires PriceLine(req, c).Ok?
    ensures ExpectedLine(req, PriceLine(req, c).value.item, c)
    ensures PriceLine(req, c).value.baseUnit == BaseUnitPrice(req)
  {
    if req.category == "Exterior" {
      var code := ExteriorCode(req.variant, req.months).value;
      ExteriorRowsNonIncreasing(req.variant, code);
    } else {
      InteriorRowsNonIncreasing(req.variant);
    }
  }

  /** A quote has one line per request, in request order, each the expected line for it. */
  lemma QuoteLineItems(reqs: seq<ItemRequest>, discountChoice: string, upfrontSelected: bool)
    requires Quote(reqs, discountChoice, upfrontSelected).Ok?
    ensures var q := Quote(reqs, discountChoice, upfrontSelected).value;
      |q.items| == |reqs| &&
      forall i :: 0 <= i < |reqs| ==>
        ExpectedLine(reqs[i], q.items[i], ResolveConditions(reqs, discountChoice, upfrontSelected))
  {
    var c := ResolveConditions(reqs, discountChoice, upfrontSelected);
    var lines := PriceAll(reqs, c).value;
    QuoteOfPriced(reqs, discountChoice, upfrontSelected, PriceAll(reqs, c));
    PriceAllLines(reqs, c);
    ItemsOfAt(lines);
    forall i | 0 <= i < |reqs| ensures ExpectedLine(reqs[i], ItemsOf(lines)[i], c) {
      PriceLineExpected(reqs[i], c);
    }
  }

  // ---------- tiers and conditions ----------

  /** Six-plus is about the total exterior quantity; interior requests do not count. */
  lemma {:induction false} ExteriorQtyConcat(a: seq<ItemRequest>, b: seq<ItemRequest>)
    ensures ExteriorQty(a + b) == ExteriorQty(a) + ExteriorQty(b)
  {
    if a != [] {
      assert (a + b)[0] == a[0];
      assert (a + b)[1..] == a[1..] + b;
      ExteriorQtyConcat(a[1..], b);
    } else {
      assert a + b == b;
    }
  }

  /** A total exterior quantity of 5 does not trigger the six-plus condition; 6 does. */
  lemma SixPlusThreshold(discountChoice: string, upfrontSelected: bool)
    ensures !ResolveConditions([ItemRequest("Exterior", "Kong", 1, 5)], discountChoice, upfrontSelected).sixPlus
    ensures ResolveConditions([ItemRequest("Exterior", "Kong", 1, 6)], discountChoice, upfrontSelected).sixPlus
    ensures !ResolveConditions([ItemRequest("Exterior", "Kong", 1, 5), ItemRequest("Interior", "11x17", 1, 1)],
                               discountChoice, upfrontSelected).sixPlus
  {
    var five := ItemRequest("Exterior", "Kong", 1, 5);
    var card := ItemRequest("Interior", "11x17", 1, 1);
    ExteriorQtyConcat([five], [card]);
  }

  /** Adding a discount condition never raises an exterior request's unit price. */
  lemma MoreConditionsNeverRaiseExteriorPrice(req: ItemRequest, c1: Conditions, c2: Conditions)
    requires req.category == "Exterior" && PriceLine(req, c1).Ok?
    requires c1.agencyOrPsa ==> c2.agencyOrPsa
    requires c1.upfront ==> c2.upfront
    requires c1.sixPlus ==> c2.sixPlus
    ensures PriceLine(req, c2).Ok?
    ensures PriceLine(req, c2).value.item.unitPrice <= PriceLine(req, c1).value.item.unitPrice
    ensures PriceLine(req, c1).value.baseUnit == PriceLine(req, c2).value.baseUnit
  {
    var code := ExteriorCode(req.variant, req.months).value;
    ExteriorRowsNonIncreasing(req.variant, code);
  }

  /** Interior pricing depends on the Agency/PSA condition only: not on upfront, not on six-plus. */
  lemma InteriorIgnoresUpfrontAndSixPlus(req: ItemRequest, c1: Conditions, c2: Conditions)
    requires req.category != "Exterior"
    requires c1.agencyOrPsa == c2.agencyOrPsa
    ensures PriceLine(req, c1) == PriceLine(req, c2)
  {
  }

  /** Turning upfront payment on or off leaves every interior line of a quote unchanged. */
  lemma QuoteInteriorLinesIgnoreUpfront(reqs: seq<ItemRequest>, discountChoice: string, i: nat)
    requires Quote(reqs, discountChoice, false).Ok?
    requires i < |reqs| && reqs[i].category != "Exterior"
    ensures Quote(reqs, discountChoice, true).Ok?
    ensures |Quote(reqs, discountChoice, true).value.items| == |reqs|
    ensures |Quote(reqs, discountChoice, false).value.items| == |reqs|
    ensures Quote(reqs, discountChoice, true).value.items[i] == Quote(reqs, discountChoice, false).value.items[i]
  {
    QuoteSucceedsIff(reqs, discountChoice, false);
    QuoteSucceedsIff(reqs, discountChoice, true);
    QuoteLineItems(reqs, discountChoice, false);
    QuoteLineItems(reqs, discountChoice, true);
  }

  /** When every line of a category has the same tier, that category's highest tier is it (0 if none). */
  lemma {:induction false} TierUsedUniform(lines: seq<PricedLine>, category: string, t: nat)
    requires forall k :: 0 <= k < |lines| && lines[k].item.typeDisplay == category ==> lines[k].tier == t
    ensures TierUsed(lines, category) ==
      if exists k :: 0 <= k < |lines| && lines[k].item.typeDisplay == category then t else 0
  {
    if lines != [] {
      var init := lines[..|lines| - 1];
      TierUsedUniform(init, category, t);
      if exists k :: 0 <= k < |init| && init[k].item.typeDisplay == category {
        var k :| 0 <= k < |init| && init[k].item.typeDisplay == category;
        assert lines[k] == init[k];
      }
      if exists k :: 0 <= k < |lines| && lines[k].item.typeDisplay == category {
        var k :| 0 <= k < |lines| && lines[k].item.typeDisplay == category;
        if k < |init| {
          assert init[k] == lines[k];
        }
      }
    }
  }

  /** A priced line's category and tier follow from its request and the conditions alone. */
  lemma PriceLineTier(req: ItemRequest, c: Conditions)
    requires PriceLine(req, c).Ok?
    ensures var l := PriceLine(req, c).value;
      (l.item.typeDisplay == "Exterior" <==> req.category == "Exterior") &&
      (l.item.typeDisplay == "Interior" <==> req.category != "Exterior") &&
      l.tier == if req.category == "Exterior" then ExteriorTier(c) else InteriorTier(c)
  {
  }

  /** The lines of a priced request list, with each line's tier and category settled. */
  lemma PricedLinesTiers(reqs: seq<ItemRequest>, c: Conditions)
    requires PriceAll(reqs, c).Ok?
    ensures var lines := PriceAll(reqs, c).value;
      |lines| == |reqs| &&
      forall k :: 0 <= k < |lines| ==>
        (lines[k].item.typeDisplay == "Exterior" <==> reqs[k].category == "Exterior") &&
        (lines[k].item.typeDisplay == "Interior" <==> reqs[k].category != "Exterior") &&
        lines[k].tier == if reqs[k].category == "Exterior" then ExteriorTier(c) else InteriorTier(c)
  {
    PriceAllLines(reqs, c);
    forall k | 0 <= k < |reqs| {
      PriceLineTier(reqs[k], c);
    }
  }

  /**
   * The reported exterior tier is the tier actually used: the exterior tier of the
   * conditions when the quote has an exterior line, and 0 when it has none.
   */
  lemma QuoteExteriorTier(reqs: seq<ItemRequest>, discountChoice: string, upfrontSelected: bool)
    requires Quote(reqs, discountChoice, upfrontSelected).Ok?
    ensures var q := Quote(reqs, discountChoice, upfrontSelected).value;
      var c := ResolveConditions(reqs, discountChoice, upfrontSelected);
      q.exteriorTier == (if exists i :: 0 <= i < |reqs| && reqs[i].category == "Exterior" then ExteriorTier(c) else 0) &&
      q.exteriorTier <= 3
  {
    var c := ResolveConditions(reqs, discountChoice, upfrontSelected);
    var lines := PriceAll(reqs, c).value;
    QuoteOfPriced(reqs, discountChoice, upfrontSelected, PriceAll(reqs, c));
    PricedLinesTiers(reqs, c);
    TierUsedUniform(lines, "Exterior", ExteriorTier(c));
  }

  /**
   * The reported interior tier is the tier actually used: the interior tier of the
   * conditions when the quote has an interior line, and 0 when it has none.
   */
  lemma QuoteInteriorTier(reqs: seq<ItemRequest>, discountChoice: string, upfrontSelected: bool)
    requires Quote(reqs, discountChoice, upfrontSelected).Ok?
    ensures var q := Quote(reqs, discountChoice, upfrontSelected).value;
      var c := ResolveConditions(reqs, discountChoice, upfrontSelected);
      q.interiorTier == (if exists i :: 0 <= i < |reqs| && reqs[i].category != "Exterior" then InteriorTier(c) else 0) &&
      q.interiorTier <= 1
  {
    var c := ResolveConditions(reqs, discountChoice, upfrontSelected);
    var lines := PriceAll(reqs, c).value;
    QuoteOfPriced(reqs, discountChoice, upfrontSelected, PriceAll(reqs, c));
    PricedLinesTiers(reqs, c);
    TierUsedUniform(lines, "Interior", InteriorTier(c));
  }

  // ---------- totals ----------

  lemma MulMonotone(a: int, b: int, k: int)
    requires a <= b && k >= 0
    ensures a * k <= b * k
  {
  }

  /** With non-negative quantities (and months, for interior cards) a line never costs more than at base. */
  lemma LineNotAboveBase(req: ItemRequest, c: Conditions)
    requires PriceLine(req, c).Ok?
    requires req.qty >= 0 && (req.category != "Exterior" ==> req.months >= 0)
    ensures var l := PriceLine(req, c).value;
      l.item.unitPrice <= l.baseUnit && l.item.unitPrice * l.item.qty <= l.baseUnit * l.item.qty
  {
    var l := PriceLine(req, c).value;
    if req.category == "Exterior" {
      var code := ExteriorCode(req.variant, req.months).value;
      ExteriorRowsNonIncreasing(req.variant, code);
    } else {
      InteriorRowsNonIncreasing(req.variant);
      var row := InteriorRateTable[req.variant];
      MulMonotone(row[InteriorTier(c)], row[0], req.months);
    }
    MulMonotone(l.item.unitPrice, l.baseUnit, l.item.qty);
  }

  lemma {:induction false} DiscountedAtMostBase(lines: seq<PricedLine>)
    requires forall k :: 0 <= k < |lines| ==>
      lines[k].item.unitPrice * lines[k].item.qty <= lines[k].baseUnit * lines[k].item.qty
    ensures DiscountedSubtotal(lines) <= BaseSubtotal(lines)
  {
    if lines != [] {
      DiscountedAtMostBase(lines[..|lines| - 1]);
    }
  }

  /**
   * Discounts never increase the price: for non-negative quantities (and interior months)
   * the total is at most the base subtotal and the amount saved is their non-negative difference.
   */
  lemma TotalNeverExceedsSubtotal(reqs: seq<ItemRequest>, discountChoice: string, upfrontSelected: bool)
    requires Quote(reqs, discountChoice, upfrontSelected).Ok?
    requires forall i :: 0 <= i < |reqs| ==> reqs[i].qty >= 0
    requires forall i :: 0 <= i < |reqs| && reqs[i].category != "Exterior" ==> reqs[i].months >= 0
    ensures var q := Quote(reqs, discountChoice, upfrontSelected).value;
      q.total <= q.subtotalBase && q.saved == q.subtotalBase - q.total && q.saved >= 0
  {
    var c := ResolveConditions(reqs, discountChoice, upfrontSelected);
    var lines := PriceAll(reqs, c).value;
    QuoteOfPriced(reqs, discountChoice, upfrontSelected, PriceAll(reqs, c));
    PriceAllLines(reqs, c);
    forall k | 0 <= k < |lines|
      ensures lines[k].item.unitPrice * lines[k].item.qty <= lines[k].baseUnit * lines[k].item.qty
    {
      LineNotAboveBase(reqs[k], c);
    }
    DiscountedAtMostBase(lines);
  }

  /** The sum of the line totals of some line items. */
  function SumLineTotals(items: seq<LineItem>): int {
    if items == [] then 0 else SumLineTotals(items[..|items| - 1]) + items[|items| - 1].lineTotal
  }

  /** The sum over the requests of base unit price x quantity. */
  function BaseTotal(reqs: seq<ItemRequest>): int {
    if reqs == [] then 0 else BaseTotal(reqs[..|reqs| - 1]) + BaseUnitPrice(reqs[|reqs| - 1]) * reqs[|reqs| - 1].qty
  }

  lemma {:induction false} DiscountedIsSumOfLineTotals(lines: seq<PricedLine>)
    requires forall k :: 0 <= k < |lines| ==> lines[k].item.lineTotal == lines[k].item.unitPrice * lines[k].item.qty
    ensures DiscountedSubtotal(lines) == SumLineTotals(ItemsOf(lines))
  {
    if lines != [] {
      var init := lines[..|lines| - 1];
      DiscountedIsSumOfLineTotals(init);
      AppendLine(init, lines[|lines| - 1]);
      assert init + [lines[|lines| - 1]] == lines;
      var items := ItemsOf(lines);
      assert items[..|items| - 1] == ItemsOf(init);
    }
  }

  lemma {:induction false} BaseSubtotalIsBaseTotal(reqs: seq<ItemRequest>, c: Conditions)
    requires PriceAll(reqs, c).Ok?
    ensures BaseSubtotal(PriceAll(reqs, c).value) == BaseTotal(reqs)
  {
    if reqs != [] {
      var init := reqs[..|reqs| - 1];
      var last := reqs[|reqs| - 1];
      BaseSubtotalIsBaseTotal(init, c);
      var lines := PriceAll(init, c).value;
      var line := PriceLine(last, c).value;
      assert PriceAll(reqs, c).value == lines + [line];
      AppendLine(lines, line);
      PriceLineExpected(last, c);
    }
  }

  /**
   * What the reported money figures are: the total is the sum of the line totals, the base
   * subtotal the sum of the requests' tier-0 prices times quantity, and saved their difference.
   */
  lemma QuoteTotalsAreSums(reqs: seq<ItemRequest>, discountChoice: string, upfrontSelected: bool)
    requires Quote(reqs, discountChoice, upfrontSelected).Ok?
    ensures var q := Quote(reqs, discountChoice, upfrontSelected).value;
      q.total == SumLineTotals(q.items) && q.subtotalBase == BaseTotal(reqs) &&
      q.saved == q.subtotalBase - q.total
  {
    var c := ResolveConditions(reqs, discountChoice, upfrontSelected);
    var lines := PriceAll(reqs, c).value;
    QuoteOfPriced(reqs, discountChoice, upfrontSelected, PriceAll(reqs, c));
    PriceAllLines(reqs, c);
    forall k | 0 <= k < |lines|
      ensures lines[k].item.lineTotal == lines[k].item.unitPrice * lines[k].item.qty
    {
      PriceLineExpected(reqs[k], c);
    }
    DiscountedIsSumOfLineTotals(lines);
    BaseSubtotalIsBaseTotal(reqs, c);
  }

  lemma {:induction false} UndiscountedSubtotals(lines: seq<PricedLine>)
    requires forall k :: 0 <= k < |lines| ==> lines[k].item.unitPrice == lines[k].baseUnit
    ensures DiscountedSubtotal(lines) == BaseSubtotal(lines)
  {
    if lines != [] {
      UndiscountedSubtotals(lines[..|lines| - 1]);
    }
  }

  /** With no condition held every line is at its base price: total = subtotal and nothing is saved. */
  lemma NoConditionNoDiscount(reqs: seq<ItemRequest>, discountChoice: string, upfrontSelected: bool)
    requires Quote(reqs, discountChoice, upfrontSelected).Ok?
    requires discountChoice != "Agency 10%" && discountChoice != "PSA 10%" && !upfrontSelected
    requires ExteriorQty(reqs) < 6
    ensures var q := Quote(reqs, discountChoice, upfrontSelected).value;
      q.total == q.subtotalBase && q.saved == 0
  {
    var c := ResolveConditions(reqs, discountChoice, upfrontSelected);
    assert c == Conditions(false, false, false);
    var lines := PriceAll(reqs, c).value;
    QuoteOfPriced(reqs, discountChoice, upfrontSelected, PriceAll(reqs, c));
    PriceAllLines(reqs, c);
    forall k | 0 <= k < |lines| ensures lines[k].item.unitPrice == lines[k].baseUnit {
      PriceLineUndiscounted(reqs[k], c);
    }
    UndiscountedSubtotals(lines);
  }

  lemma PriceLineUndiscounted(req: ItemRequest, c: Conditions)
    requires !c.agencyOrPsa && !c.upfront && !c.sixPlus
    requires PriceLine(req, c).Ok?
    ensures PriceLine(req, c).value.item.unitPrice == PriceLine(req, c).value.baseUnit
  {
    assert ExteriorTier(c) == 0 && InteriorTier(c) == 0;
  }

  // ---------- flags summary ----------

  /** The summary is "None" exactly when no condition holds. */
  lemma FlagsSummaryNoneIff(c: Conditions)
    ensures FlagsSummary(c) == "None" <==> !c.agencyOrPsa && !c.upfront && !c.sixPlus
  {
    var used := HeldLabels(c);
    if used != [] {
      assert Join(used, ", ")[0] == used[0][0];
    }
  }

  lemma JoinTwo(x: string, y: string, sep: string)
    ensures Join([x, y], sep) == x + sep + y
  {
    assert [x, y][1..] == [y];
  }

  lemma JoinThree(x: string, y: string, z: string, sep: string)
    ensures Join([x, y, z], sep) == x + sep + y + sep + z
  {
    assert [x, y, z][1..] == [y, z];
    JoinTwo(y, z, sep);
  }

  /** The summary lists the held conditions' labels in fixed order, joined by ", ". */
  lemma FlagsSummaryCases(c: Conditions)
    ensures c.agencyOrPsa && c.upfront && c.sixPlus ==>
      FlagsSummary(c) == AgencyOrPsaLabel + ", " + UpfrontLabel + ", " + SixPlusLabel
    ensures c.agencyOrPsa && c.upfront && !c.sixPlus ==> FlagsSummary(c) == AgencyOrPsaLabel + ", " + UpfrontLabel
    ensures c.agencyOrPsa && !c.upfront && c.sixPlus ==> FlagsSummary(c) == AgencyOrPsaLabel + ", " + SixPlusLabel
    ensures !c.agencyOrPsa && c.upfront && c.sixPlus ==> FlagsSummary(c) == UpfrontLabel + ", " + SixPlusLabel
    ensures c.agencyOrPsa && !c.upfront && !c.sixPlus ==> FlagsSummary(c) == AgencyOrPsaLabel
    ensures !c.agencyOrPsa && c.upfront && !c.sixPlus ==> FlagsSummary(c) == UpfrontLabel
    ensures !c.agencyOrPsa && !c.upfront && c.sixPlus ==> FlagsSummary(c) == SixPlusLabel
    ensures !c.agencyOrPsa && !c.upfront && !c.sixPlus ==> FlagsSummary(c) == "None"
  {
    if c.agencyOrPsa && c.upfront && c.sixPlus {
      assert HeldLabels(c) == [AgencyOrPsaLabel, UpfrontLabel, SixPlusLabel];
      JoinThree(AgencyOrPsaLabel, UpfrontLabel, SixPlusLabel, ", ");
    } else if c.agencyOrPsa && c.upfront {
      assert HeldLabels(c) == [AgencyOrPsaLabel, UpfrontLabel];
      JoinTwo(AgencyOrPsaLabel, UpfrontLabel, ", ");
    } else if c.agencyOrPsa && c.sixPlus {
      assert HeldLabels(c) == [AgencyOrPsaLabel, SixPlusLabel];
      JoinTwo(AgencyOrPsaLabel, SixPlusLabel, ", ");
    } else if c.upfront && c.sixPlus {
      assert HeldLabels(c) == [UpfrontLabel, SixPlusLabel];
      JoinTwo(UpfrontLabel, SixPlusLabel, ", ");
    }
  }

  // ---------- worked quotes ----------

  /** An empty quote with no discount selected costs nothing and reports no flags. */
  lemma EmptyQuote()
    ensures Quote([], "None", false) == Ok(QuoteTotals([], 0, 0, 0, 0, "None", 0))
  {
  }

  lemma PriceAllSingle(req: ItemRequest, c: Conditions, line: PricedLine)
    requires PriceLine(req, c) == Ok(line)
    ensures PriceAll([req], c) == Ok([line])
  {
    assert [req][..0] == [] && [req][0] == req;
    assert PriceAll([req][..0], c) == Ok([]);
    assert [] + [line] == [line];
  }

  lemma TotalsOfSingle(line: PricedLine, c: Conditions)
    ensures TotalsOf([line], c) ==
      QuoteTotals([line.item], line.baseUnit * line.item.qty, line.item.unitPrice * line.item.qty,
                  if line.item.typeDisplay == "Exterior" then line.tier else 0,
                  if line.item.typeDisplay == "Interior" then line.tier else 0,
                  FlagsSummary(c),
                  line.baseUnit * line.item.qty - line.item.unitPrice * line.item.qty)
  {
    assert [line][..0] == [];
    assert ItemsOf([line]) == [] + [line.item] == [line.item];
    assert BaseSubtotal([line]) == line.baseUnit * line.item.qty;
    assert DiscountedSubtotal([line]) == line.item.unitPrice * line.item.qty;
    assert TierUsed([line], "Exterior") == if line.item.typeDisplay == "Exterior" then Max(0, line.tier) else 0;
    assert TierUsed([line], "Interior") == if line.item.typeDisplay == "Interior" then Max(0, line.tier) else 0;
  }

  /** A one-request quote is that request's line and its totals. */
  lemma SingleRequestQuote(req: ItemRequest, discountChoice: string, upfrontSelected: bool, line: PricedLine)
    requires PriceLine(req, ResolveConditions([req], discountChoice, upfrontSelected)) == Ok(line)
    ensures Quote([req], discountChoice, upfrontSelected) ==
      Ok(QuoteTotals([line.item], line.baseUnit * line.item.qty, line.item.unitPrice * line.item.qty,
                     if line.item.typeDisplay == "Exterior" then line.tier else 0,
                     if line.item.typeDisplay == "Interior" then line.tier else 0,
                     FlagsSummary(ResolveConditions([req], discountChoice, upfrontSelected)),
                     line.baseUnit * line.item.qty - line.item.unitPrice * line.item.qty))
  {
    var c := ResolveConditions([req], discountChoice, upfrontSelected);
    PriceAllSingle(req, c, line);
    TotalsOfSingle(line, c);
    QuoteOfPriced([req], discountChoice, upfrontSelected, Ok([line]));
  }

  /** `n` copies of the same exterior request add up to `n` times its quantity. */
  lemma {:induction false} ExteriorQtyRepeated(req: ItemRequest, n: nat)
    requires req.category == "Exterior"
    ensures ExteriorQty(seq(n, _ => req)) == n * req.qty
  {
    if n > 0 {
      var reqs := seq(n, _ => req);
      assert reqs[0] == req;
      assert reqs[1..] == seq(n - 1, _ => req);
      ExteriorQtyRepeated(req, n - 1);
    }
  }

  /**
   * Six separate one-month Kong requests, no discount, no upfront payment: together they
   * reach six buses, so every line is priced at tier 1, 630 instead of 700.
   */
  lemma SixKongRequests()
    ensures var reqs := seq(6, _ => ItemRequest("Exterior", "Kong", 1, 1));
      var q := Quote(reqs, "None", false);
      q.Ok? && |q.value.items| == 6 &&
      (forall i :: 0 <= i < 6 ==> q.value.items[i].unitPrice == 630 && q.value.items[i].code == "K-1") &&
      q.value.exteriorTier == 1 && q.value.flagsSummary == SixPlusLabel
  {
    var req := ItemRequest("Exterior", "Kong", 1, 1);
    var reqs := seq(6, _ => req);
    ExteriorQtyRepeated(req, 6);
    var c := ResolveConditions(reqs, "None", false);
    assert c == Conditions(false, false, true);
    KongOneMonth();
    PriceLineOkIff(req, c);
    QuoteSucceedsIff(reqs, "None", false);
    QuoteLineItems(reqs, "None", false);
    QuoteExteriorTier(reqs, "None", false);
    FlagsSummaryCases(c);
  }

  lemma KongOneMonth()
    ensures ExteriorCode("Kong", 1) == Ok("K-1")
    ensures ExteriorRateTable["Kong"]["K-1"] == [700, 630, 560, 490]
    ensures Priceable(ItemRequest("Exterior", "Kong", 1, 1))
  {
    CatalogMonthDigits();
    assert CodeString("K", 1) == "K-1";
  }

  /** One Full Wrap for 4 months, quantity 2, no discounts: base price 4500 each. */
  lemma FullWrapNoDiscount()
    ensures Quote([ItemRequest("Exterior", "Full Wrap", 4, 2)], "None", false) ==
      Ok(QuoteTotals([LineItem("Exterior", "Full Wrap", "FW-4", 4, 2, 4500, 9000)], 9000, 9000, 0, 0, "None", 0))
  {
    var req := ItemRequest("Exterior", "Full Wrap", 4, 2);
    assert [req][1..] == [];
    var c := ResolveConditions([req], "None", false);
    assert ExteriorQty([req]) == 2 + ExteriorQty([]);
    assert c == Conditions(false, false, false);
    assert CodeString("FW", 4) == "FW-4";
    assert ExteriorCode("Full Wrap", 4) == Ok("FW-4");
    assert ExteriorRateTable["Full Wrap"]["FW-4"] == [4500, 4050, 3600, 3150];
    assert ExteriorTier(c) == 0;
    var line := PricedLine(LineItem("Exterior", "Full Wrap", "FW-4", 4, 2, 4500, 9000), 4500, 0);
    assert PriceLine(req, c) == Ok(line);
    SingleRequestQuote(req, "None", false, line);
    FlagsSummaryCases(c);
  }

  /** The same placement with Agency 10% and upfront payment: tier 2, 3600 each. */
  lemma FullWrapAgencyUpfront()
    ensures Quote([ItemRequest("Exterior", "Full Wrap", 4, 2)], "Agency 10%", true) ==
      Ok(QuoteTotals([LineItem("Exterior", "Full Wrap", "FW-4", 4, 2, 3600, 7200)], 9000, 7200, 2, 0,
                     AgencyOrPsaLabel + ", " + UpfrontLabel, 1800))
  {
    var req := ItemRequest("Exterior", "Full Wrap", 4, 2);
    assert [req][1..] == [];
    var c := ResolveConditions([req], "Agency 10%", true);
    assert ExteriorQty([req]) == 2 + ExteriorQty([]);
    assert c == Conditions(true, true, false);
    assert CodeString("FW", 4) == "FW-4";
    assert ExteriorCode("Full Wrap", 4) == Ok("FW-4");
    assert ExteriorRateTable["Full Wrap"]["FW-4"] == [4500, 4050, 3600, 3150];
    assert ExteriorTier(c) == 2;
    var line := PricedLine(LineItem("Exterior", "Full Wrap", "FW-4", 4, 2, 3600, 7200), 4500, 2);
    assert PriceLine(req, c) == Ok(line);
    SingleRequestQuote(req, "Agency 10%", true, line);
    FlagsSummaryCases(c);
  }

  /** One 11x17 interior card for 3 months with PSA 10%: 612 per month, tier 1. */
  lemma InteriorPsa()
    ensures Quote([ItemRequest("Interior", "11x17", 3, 1)], "PSA 10%", false) ==
      Ok(QuoteTotals([LineItem("Interior", "Interior Cards", "11x17", 3, 1, 1836, 1836)], 2040, 1836, 0, 1,
                     "Agency/PSA 10%", 204))
  {
    var req := ItemRequest("Interior", "11x17", 3, 1);
    assert [req][1..] == [];
    var c := ResolveConditions([req], "PSA 10%", false);
    assert ExteriorQty([req]) == 0 + ExteriorQty([]);
    assert "PSA 10%" != "Agency 10%";
    assert c == Conditions(true, false, false);
    assert InteriorRateTable["11x17"] == [680, 612];
    assert InteriorTier(c) == 1;
    var line := PricedLine(LineItem("Interior", "Interior Cards", "11x17", 3, 1, 1836, 1836), 2040, 1);
    assert PriceLine(req, c) == Ok(line);
    SingleRequestQuote(req, "PSA 10%", false, line);
    FlagsSummaryCases(c);
  }
}
