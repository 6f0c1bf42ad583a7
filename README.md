# RTS advertising quote engine, in Dafny

This project models the pricing core of the RTS advertising quote tool, together with the
proofs about it. Exterior bus placements and interior cards are priced from three fixed
catalog tables. Up to three discount conditions apply, each one tier step:
- Agency/PSA: the discount choice is "Agency 10%" or "PSA 10%".
- Upfront payment.
- Six-plus: at least six exterior buses in total.

The engine returns one line per requested placement, the base and discounted subtotals, the
amount saved, the tier used per category, and a fixed-order summary of the conditions that
apply. The model also covers the text escaping the printable quote applies to free text.

Files:

- `results.dfy`: the `Result` type. It stands in for a Python `KeyError` escaping a lookup.
- `decimal.dfy`: the decimal rendering of the months inside a duration code. This is the
  `{months}` of the f-string. A round-trip lemma shows the code determines its months.
- `rate_tables.dfy`: the exterior rate table, the allowed durations, the interior rate table,
  the product prefixes and `ExteriorCode`. The lemmas about the catalog prove:
  - the keys of each product's table are exactly its codes for its allowed durations;
  - every price row falls as the tier rises.
- `quote_engine.dfy`: the quote data types and the pricing engine.
  - `Quote` is a functional specification: conditions resolved once, one priced line per
    request in order, the first failed lookup aborting the quote.
  - `ComputeQuote` is the engine's imperative loop. It keeps its accumulators, flag lists and
    item list, and is proved equal to `Quote`.
  - `PriceItem` is the loop body and `SummarizeFlags` the flags-summary step, as methods.
- `quote_properties.dfy`: what `Quote` promises, covering:
  - when a quote succeeds, and which key it fails on;
  - the line items, the tiers and the totals;
  - the flags summary;
  - the worked scenarios: a Full Wrap with and without discounts, six Kong buses, a PSA
    interior card, and the empty quote.
- `quote_pdf.dfy`: `escape_text`, kept as its chain of three whole-string replacements and
  proved equal to per-character escaping. Further lemmas prove its length and its inverse.

Modelling decisions:

- **Prices are whole dollars (`int`).** Every table entry is a whole number of dollars, so
  the source's `round(x, 2)` is the identity and floats add nothing.
- **Failed lookups.** A failed dictionary lookup is `Err(KeyError(key))`, with the key
  Python would report:
  - the product name, for an unknown exterior product;
  - the built code, for a duration the product does not offer;
  - the size, for an unknown interior size.
- **Categories.** Any category other than `"Exterior"` is priced as an interior card, as the
  source's `else` branch does.
- **Validation.** The source raises only lookup failures and never checks months or
  quantity, so the model has no months or quantity error and lets any value through,
  negative ones included; `RateTables.ExteriorCodeInTableIff` shows that an unoffered
  duration is exactly an exterior lookup failure.

## Model

| member | source | states |
|---|---|---|
| QuoteEngine.ComputeQuote | rate_tables.py:84-142 | the engine's result equals the quote specification `Quote` for all inputs, including the error of the first request whose lookup fails |
| QuoteEngine.PriceItem | rate_tables.py:100-124 | one loop iteration prices the request exactly as `PriceLine` does under the conditions encoded in the flags list; the quantity is kept and the line's category is "Exterior" exactly for exterior requests |
| QuoteEngine.SummarizeFlags | rate_tables.py:126-130 | the summary built from the flags equals `FlagsSummary` of the resolved conditions |
| QuoteEngine.ExteriorTier | rate_tables.py:101-106 | an exterior line's tier is the number of conditions that hold, never above 3 |
| QuoteEngine.InteriorTier | rate_tables.py:116-117 | an interior line's tier is at most 1, and is 1 exactly when the Agency/PSA condition holds |
| QuoteEngine.PriceAllStep | rate_tables.py:100-124 | pricing one more request that succeeds extends the priced prefix by its line |
| QuoteEngine.PriceAllStopsAt | rate_tables.py:100-124 | the first request whose lookup fails decides the error of the whole quote |
| QuoteEngine.AppendLine | rate_tables.py:111-114 | appending a line adds its item, base x qty and unit x qty to the running figures, and raises the category's used tier to the line's tier |
| RateTables.ExteriorCode | rate_tables.py:78-81 | fails with the product as missing key exactly for an unknown product; otherwise the code is the prefix, a hyphen and a decimal that reads back as the months |
| RateTables.CodeStringInjective | rate_tables.py:81 | two codes with the same prefix are equal only when their months are |
| RateTables.ExteriorProductsAgree | rate_tables.py:5-43 | the rate table, the allowed-durations table and the prefix map list the same five products |
| RateTables.RateKeysAreAllowedCodes | rate_tables.py:5-43 | the keys of a product's rate table are exactly the codes of its allowed durations |
| RateTables.ExteriorCodeInTableIff | rate_tables.py:37-43 | a product's code for `months` is in its rate table exactly when `months` is an allowed duration |
| RateTables.ExteriorRowsNonIncreasing | rate_tables.py:5-36 | every exterior row has four non-negative prices that never rise with the tier |
| RateTables.InteriorRowsNonIncreasing | rate_tables.py:45-50 | every interior row has a base and a discounted price, 0 <= discounted <= base |
| Decimal.IntToDecimalRoundTrip | rate_tables.py:81 | reading back the decimal rendering of the months gives the months |
| Decimal.NatToDecimalRoundTrip | rate_tables.py:81 | the digit rendering of a natural number denotes that number |
| Decimal.IntToDecimalInjective | rate_tables.py:81 | distinct months render distinctly |
| QuoteProperties.PriceAllOkIff | rate_tables.py:100-124 | pricing the list succeeds exactly when every request prices |
| QuoteProperties.PriceAllLines | rate_tables.py:100-124 | a priced list has one line per request, the i-th line being request i's line |
| QuoteProperties.ItemsOfAt | rate_tables.py:113-123 | the reported items are the priced lines' items, same length and order |
| QuoteProperties.PriceLineOkIff | rate_tables.py:100-119 | a request prices exactly when it names a catalogued product with an allowed duration, or a known interior size; otherwise it fails on the key Python would report |
| QuoteProperties.QuoteSucceedsIff | rate_tables.py:84-142 | a quote succeeds exactly when every request is priceable |
| QuoteProperties.QuoteFailsAtFirstUnpriceable | rate_tables.py:100-124 | a quote fails with the missing key of its first unpriceable request |
| QuoteProperties.PriceLineExpected | rate_tables.py:100-123 | a priced line: months and qty as requested, line total = unit x qty; exterior lines carry product, code and the row price at the exterior tier; interior lines carry "Interior Cards", the size and the row price at the interior tier times months; its base price is the tier-0 price (`BaseUnitPrice`: row[0], or row[0] x months for cards) |
| QuoteProperties.QuoteLineItems | rate_tables.py:100-123 | the quote's items are one expected line per request, in request order |
| QuoteProperties.ExteriorQtyConcat | rate_tables.py:86 | the exterior quantity of two request lists is the sum of theirs; interior requests add nothing |
| QuoteProperties.ExteriorQtyRepeated | rate_tables.py:86 | n copies of an exterior request count n times its quantity |
| QuoteProperties.SixPlusThreshold | rate_tables.py:86-87 | a total exterior quantity of 5 does not trigger six-plus, 6 does, and an added interior card does not count |
| QuoteProperties.MoreConditionsNeverRaiseExteriorPrice | rate_tables.py:101-112 | an exterior request that prices under some conditions prices under any superset of them, at a unit price no higher and the same base price |
| QuoteProperties.InteriorIgnoresUpfrontAndSixPlus | rate_tables.py:115-120 | an interior line depends on the Agency/PSA condition only, not on upfront or six-plus |
| QuoteProperties.QuoteInteriorLinesIgnoreUpfront | rate_tables.py:115-123 | toggling upfront payment leaves every interior line of a quote unchanged |
| QuoteProperties.TierUsedUniform | rate_tables.py:114-124 | when all lines of a category share a tier, the category's used tier is that tier, or 0 without such a line |
| QuoteProperties.PriceLineTier | rate_tables.py:101-117 | a line's category follows its request's and its tier is the exterior or interior tier of the conditions |
| QuoteProperties.PricedLinesTiers | rate_tables.py:100-124 | the same for every line of a priced list |
| QuoteProperties.QuoteExteriorTier | rate_tables.py:97-114 | the reported exterior tier is the conditions' exterior tier if the quote has an exterior line and 0 otherwise, never above 3 |
| QuoteProperties.QuoteInteriorTier | rate_tables.py:98-124 | the reported interior tier is the conditions' interior tier if the quote has an interior line and 0 otherwise, never above 1 |
| QuoteProperties.LineNotAboveBase | rate_tables.py:108-122 | with non-negative quantity (and months, for cards) a line's unit price and total never exceed base |
| QuoteProperties.DiscountedAtMostBase | rate_tables.py:111-122 | if no line costs more than at base, the discounted subtotal is at most the base subtotal |
| QuoteProperties.TotalNeverExceedsSubtotal | rate_tables.py:132-142 | with non-negative quantities (and card months) total <= subtotal, and saved = subtotal - total >= 0 |
| QuoteProperties.DiscountedIsSumOfLineTotals | rate_tables.py:112-123 | the discounted subtotal is the sum of the reported lines' totals |
| QuoteProperties.BaseSubtotalIsBaseTotal | rate_tables.py:108-121 | the base subtotal of a priced list is the sum over its requests of tier-0 price x qty |
| QuoteProperties.QuoteTotalsAreSums | rate_tables.py:109-142 | a quote's total is the sum of its line totals, its base subtotal the sum of tier-0 price x qty over the requests, and saved their difference |
| QuoteProperties.UndiscountedSubtotals | rate_tables.py:111-122 | when every line sells at its base price the two subtotals agree |
| QuoteProperties.PriceLineUndiscounted | rate_tables.py:101-120 | with no condition held a line sells at its base price (exterior row[0], interior row[0] x months) |
| QuoteProperties.NoConditionNoDiscount | rate_tables.py:86-142 | with no Agency/PSA choice, no upfront payment and fewer than six exterior buses, total = subtotal and saved = 0 |
| QuoteProperties.FlagsSummaryNoneIff | rate_tables.py:126-130 | the summary is "None" exactly when no condition holds |
| QuoteProperties.JoinTwo | rate_tables.py:130 | joining two labels puts the separator between them |
| QuoteProperties.JoinThree | rate_tables.py:130 | joining three labels puts the separator between each pair |
| QuoteProperties.FlagsSummaryCases | rate_tables.py:126-130 | for each of the eight condition combinations, the summary lists the held labels in the fixed order Agency/PSA, Upfront, six-plus, joined by ", " |
| QuoteProperties.EmptyQuote | rate_tables.py:84-142 | no requests, no discount, no upfront: no items, subtotal 0, total 0, tiers 0, flags "None", saved 0 |
| QuoteProperties.PriceAllSingle | rate_tables.py:100-124 | a single priceable request gives a single line |
| QuoteProperties.TotalsOfSingle | rate_tables.py:132-142 | the totals of one line: its base and line totals, its tier in its category, 0 in the other |
| QuoteProperties.SingleRequestQuote | rate_tables.py:84-142 | the whole quote of one priceable request, field by field |
| QuoteProperties.FullWrapNoDiscount | rate_tables.py:5-142 | Full Wrap, 4 months, qty 2, no discounts: unit 4500, total 9000, tier 0, flags "None" |
| QuoteProperties.FullWrapAgencyUpfront | rate_tables.py:5-142 | the same with Agency 10% and upfront: tier 2, unit 3600, total 7200, saved 1800, flags Agency/PSA then Upfront |
| QuoteProperties.SixKongRequests | rate_tables.py:5-142 | six one-month Kong requests of qty 1: six-plus holds, every line is K-1 at tier 1, 630, and the flags name only six-plus |
| QuoteProperties.KongOneMonth | rate_tables.py:18-19 | Kong for one month is code K-1, row 700/630/560/490 |
| QuoteProperties.InteriorPsa | rate_tables.py:45-142 | an 11x17 card for 3 months with PSA 10%: 612 x 3 = 1836, subtotal 2040, saved 204, interior tier 1 |
| QuotePdf.ReplaceChar | quote_pdf.py:140 | replacing a character leaves text without it unchanged, introduces only characters of the input (other than the replaced one) or of the replacement, and removes the character unless the replacement contains it |
| QuotePdf.EscapeText | quote_pdf.py:137-140 | escaped text contains no `<` or `>`, and text with none of `&`, `<`, `>` is returned unchanged |
| QuotePdf.ReplaceCharConcat | quote_pdf.py:140 | replacing a character distributes over concatenation |
| QuotePdf.EscapeTextConcat | quote_pdf.py:140 | escaping distributes over concatenation |
| QuotePdf.EscapeTextSingle | quote_pdf.py:140 | a single character escapes to its own reference (`&amp;`, `&lt;`, `&gt;`) or to itself |
| QuotePdf.EscapeTextIsPerChar | quote_pdf.py:140 | because `&` is replaced first, the chain of replacements equals escaping each character independently |
| QuotePdf.EscapeTextLength | quote_pdf.py:140 | the output is 4 characters longer per `&` and 3 per `<` or `>` |
| QuotePdf.EscapeTextRoundTrip | quote_pdf.py:140 | decoding the three references recovers the input |
| QuotePdf.EscapeTextInjective | quote_pdf.py:140 | distinct texts escape to distinct texts |

## Left out

- Floating point and `round(..., 2)`: every catalog price is a whole number of dollars, so prices are integers and rounding is the identity.
- The `str(s)` coercion in `escape_text` (quote_pdf.py:138-139): only string inputs are modelled; Python's object-to-string conversion is not.
- The Flask routes of `app.py` (JSON decoding, `int(...)` coercion, `jsonify`), the browser script and the ReportLab document layout and file output of `quote_pdf.py` are transport, user interface and foreign-library code, not part of this model.
- Tuple unpacking of malformed request items (a tuple of the wrong arity, a non-numeric quantity): requests are typed records here.
- QuoteEngine.ComputeQuote: the loop body and the flags-summary step are separate methods (`PriceItem`, `SummarizeFlags`) called from the loop; the statements are the source's, in the source's order.
- QuoteEngine.ExteriorTier: `ensures` states the tier equals the number of held conditions, which also shows the source's clamp at 3 never changes the count; the clamp is still applied.
- QuoteProperties.TotalNeverExceedsSubtotal: requires non-negative quantities and non-negative months on interior requests, because the source does not validate them and a negative quantity makes a discount raise the total.
- QuoteProperties.LineNotAboveBase: requires the same non-negativity, for the same reason.
- No InvalidMonths or InvalidQuantity errors are modelled, because the source performs no such validation; an unoffered duration surfaces as the lookup failure on the built code.
