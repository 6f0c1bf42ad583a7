/**
 * The rate catalog: the exterior and interior price tables, the months each exterior
 * product is sold for, and the helper that builds an exterior product's catalog code.
 * Every price is a whole number of dollars, so prices are integers here.
 */
module RateTables {
  import opened Results
  import opened Decimal

  /** A failed dictionary lookup; carries the missing key, as Python's KeyError does. */
  datatype LookupError = KeyError(key: string)

  /** Product -> duration code -> unit price per tier (0 = base, 1, 2, 3). */
  const ExteriorRateTable: map<string, map<string, seq<int>>> := map[
    "Full Wrap" := map[
      "FW-4" := [4500, 4050, 3600, 3150],
      "FW-8" := [8800, 7920, 7040, 6160],
      "FW-12" := [12000, 10800, 9600, 8400],
      "FW-24" := [24000, 21600, 19200, 16800]],
    "King Kong" := map[
      "KK-1" := [900, 810, 720, 630],
      "KK-4" := [3420, 3078, 2736, 2394],
      "KK-8" := [6480, 5832, 5184, 4536],
      "KK-12" := [9180, 8262, 7344, 6426]],
    "Kong" := map[
      "K-1" := [700, 630, 560, 490],
      "K-4" := [2660, 2394, 2128, 1862],
      "K-8" := [5040, 4536, 4032, 3528],
      "K-12" := [7140, 6426, 5712, 4998]],
    "King (St. Side)" := map[
      "Ksts-1" := [450, 405, 360, 315],
      "Ksts-4" := [1710, 1539, 1368, 1197],
      "Ksts-8" := [3240, 2916, 2592, 2268],
      "Ksts-12" := [4590, 4131, 3672, 3213]],
    "Queen (Curb Side)" := map[
      "Qcs-1" := [350, 315, 280, 245],
      "Qcs-4" := [1330, 1197, 1064, 931],
      "Qcs-8" := [2520, 2268, 2016, 1764],
      "Qcs-12" := [3570, 3213, 2856, 2499]]
  ]

  /** The contract lengths, in months, each exterior product is offered for. */
  const ExteriorAllowedMonths: map<string, seq<int>> := map[
    "Full Wrap" := [4, 8, 12, 24],
    "King Kong" := [1, 4, 8, 12],
    "Kong" := [1, 4, 8, 12],
    "King (St. Side)" := [1, 4, 8, 12],
    "Queen (Curb Side)" := [1, 4, 8, 12]
  ]

  /** Interior card size -> price per month per tier (0 = base, 1). */
  const InteriorRateTable: map<string, seq<int>> := map[
    "11x17" := [680, 612],
    "11x28" := [820, 738],
    "11x35" := [960, 864],
    "11x42" := [1000, 900]
  ]

  /** The abbreviation that starts each exterior product's duration codes. */
  const ExteriorPrefixes: map<string, string> := map[
    "Full Wrap" := "FW",
    "King Kong" := "KK",
    "Kong" := "K",
    "King (St. Side)" := "Ksts",
    "Queen (Curb Side)" := "Qcs"
  ]

  function CodeString(prefix: string, months: int): string {
    prefix + "-" + IntToDecimal(months)
  }

  /**
   * The duration code of `product` sold for `months`: the product's prefix, a hyphen and
   * the months; an unknown product is a lookup failure on the product name.
   */
  function ExteriorCode(product: string, months: int): (r: Result<string, LookupError>)
    ensures r.Err? <==> product !in ExteriorPrefixes
    ensures r.Err? ==> r.error == KeyError(product)
    ensures r.Ok? ==>
      var prefix := ExteriorPrefixes[product];
      |r.value| > |prefix| && r.value[..|prefix|] == prefix && r.value[|prefix|] == '-' &&
      ParseInt(r.value[|prefix| + 1..]) == months
  {
    if product !in ExteriorPrefixes then Err(KeyError(product))
    else
      var code := CodeString(ExteriorPrefixes[product], months);
      assert code[|ExteriorPrefixes[product]| + 1..] == IntToDecimal(months);
      IntToDecimalRoundTrip(months);
      Ok(code)
  }

  /** Two codes built from the same prefix are equal only when their months are. */
  lemma CodeStringInjective(prefix: string, m: int, k: int)
    requires CodeString(prefix, m) == CodeString(prefix, k)
    ensures m == k
  {
    assert CodeString(prefix, m)[|prefix| + 1..] == IntToDecimal(m);
    assert CodeString(prefix, k)[|prefix| + 1..] == IntToDecimal(k);
    IntToDecimalInjective(m, k);
  }

  /** The three exterior tables name the same products. */
  lemma ExteriorProductsAgree()
    ensures ExteriorRateTable.Keys == ExteriorAllowedMonths.Keys == ExteriorPrefixes.Keys
  {
  }

  /** A table whose keys are the codes of four month counts holds exactly those codes. */
  lemma KeysAreCodesOf(prefix: string, months: seq<int>, table: map<string, seq<int>>, code: string)
    requires |months| == 4
    requires table.Keys == {CodeString(prefix, months[0]), CodeString(prefix, months[1]),
                            CodeString(prefix, months[2]), CodeString(prefix, months[3])}
    ensures code in table <==> exists k :: k in months && code == CodeString(prefix, k)
  {
    if code in table {
      if code == CodeString(prefix, months[0]) {
        assert months[0] in months;
      } else if code == CodeString(prefix, months[1]) {
        assert months[1] in months;
      } else if code == CodeString(prefix, months[2]) {
        assert months[2] in months;
      } else {
        assert months[3] in months;
      }
    }
  }

  /** The decimal renderings of the month counts the catalog uses. */
  lemma CatalogMonthDigits()
    ensures IntToDecimal(1) == "1" && IntToDecimal(4) == "4" && IntToDecimal(8) == "8"
    ensures IntToDecimal(12) == "12" && IntToDecimal(24) == "24"
  {
  }

  /** A product's rate table is keyed by its codes for its four allowed month counts. */
  predicate KeysAreAllowedCodes(product: string)
    requires product in ExteriorRateTable && product in ExteriorPrefixes && product in ExteriorAllowedMonths
  {
    var prefix, months := ExteriorPrefixes[product], ExteriorAllowedMonths[product];
    |months| == 4 &&
    ExteriorRateTable[product].Keys == {CodeString(prefix, months[0]), CodeString(prefix, months[1]),
                                        CodeString(prefix, months[2]), CodeString(prefix, months[3])}
  }

  // One lemma per product: each checks that product's literal table against its prefix and
  // allowed durations. Kept separate so that each proof stays small.

  lemma FullWrapCatalogued()
    ensures KeysAreAllowedCodes("Full Wrap") && RowsOfProduct(ExteriorRateTable["Full Wrap"])
  {
    CatalogMonthDigits();
    assert CodeString("FW", 4) == "FW-4" && CodeString("FW", 8) == "FW-8";
    assert CodeString("FW", 12) == "FW-12" && CodeString("FW", 24) == "FW-24";
  }

  lemma KingKongCatalogued()
    ensures KeysAreAllowedCodes("King Kong") && RowsOfProduct(ExteriorRateTable["King Kong"])
  {
    CatalogMonthDigits();
    assert CodeString("KK", 1) == "KK-1" && CodeString("KK", 4) == "KK-4";
    assert CodeString("KK", 8) == "KK-8" && CodeString("KK", 12) == "KK-12";
  }

  lemma KongCatalogued()
    ensures KeysAreAllowedCodes("Kong") && RowsOfProduct(ExteriorRateTable["Kong"])
  {
    CatalogMonthDigits();
    assert CodeString("K", 1) == "K-1" && CodeString("K", 4) == "K-4";
    assert CodeString("K", 8) == "K-8" && CodeString("K", 12) == "K-12";
  }

  lemma KingStreetSideCatalogued()
    ensures KeysAreAllowedCodes("King (St. Side)") && RowsOfProduct(ExteriorRateTable["King (St. Side)"])
  {
    CatalogMonthDigits();
    assert CodeString("Ksts", 1) == "Ksts-1" && CodeString("Ksts", 4) == "Ksts-4";
    assert CodeString("Ksts", 8) == "Ksts-8" && CodeString("Ksts", 12) == "Ksts-12";
  }

  lemma QueenCurbSideCatalogued()
    ensures KeysAreAllowedCodes("Queen (Curb Side)") && RowsOfProduct(ExteriorRateTable["Queen (Curb Side)"])
  {
    CatalogMonthDigits();
    assert CodeString("Qcs", 1) == "Qcs-1" && CodeString("Qcs", 4) == "Qcs-4";
    assert CodeString("Qcs", 8) == "Qcs-8" && CodeString("Qcs", 12) == "Qcs-12";
  }

  /** Every product of the exterior table is consistently catalogued. */
  lemma ExteriorCatalogued(product: string)
    requires product in ExteriorRateTable
    ensures product in ExteriorPrefixes && product in ExteriorAllowedMonths
    ensures KeysAreAllowedCodes(product) && RowsOfProduct(ExteriorRateTable[product])
  {
    ExteriorProductsAgree();
    if product == "Full Wrap" {
      FullWrapCatalogued();
    } else if product == "King Kong" {
      KingKongCatalogued();
    } else if product == "Kong" {
      KongCatalogued();
    } else if product == "King (St. Side)" {
      KingStreetSideCatalogued();
    } else {
      QueenCurbSideCatalogued();
    }
  }

  /** The keys of a product's rate table are exactly its codes for its allowed months. */
  lemma RateKeysAreAllowedCodes(product: string, code: string)
    requires product in ExteriorRateTable
    ensures product in ExteriorPrefixes && product in ExteriorAllowedMonths
    ensures code in ExteriorRateTable[product] <==>
      exists k :: k in ExteriorAllowedMonths[product] && code == CodeString(ExteriorPrefixes[product], k)
  {
    ExteriorCatalogued(product);
    KeysAreCodesOf(ExteriorPrefixes[product], ExteriorAllowedMonths[product], ExteriorRateTable[product], code);
  }

  /**
   * For a catalogued product, the code for `months` is a key of the product's rate table
   * exactly when `months` is one of the product's allowed lengths; otherwise the lookup fails.
   */
  lemma ExteriorCodeInTableIff(product: string, months: int)
    requires product in ExteriorRateTable
    ensures ExteriorCode(product, months).Ok?
    ensures ExteriorCode(product, months).value in ExteriorRateTable[product] <==>
      months in ExteriorAllowedMonths[product]
  {
    var code := ExteriorCode(product, months).value;
    var prefix := ExteriorPrefixes[product];
    RateKeysAreAllowedCodes(product, code);
    if code in ExteriorRateTable[product] {
      var k :| k in ExteriorAllowedMonths[product] && code == CodeString(prefix, k);
      CodeStringInjective(prefix, months, k);
    }
  }

  /** A row of four tier prices, none negative, never rising with the tier. */
  predicate TierRow(row: seq<int>) {
    |row| == 4 && row[0] >= row[1] >= row[2] >= row[3] >= 0
  }

  predicate RowsOfProduct(rows: map<string, seq<int>>) {
    forall code :: code in rows ==> TierRow(rows[code])
  }

  /** Every exterior row has a price for each of the four tiers, never rising with the tier. */
  lemma ExteriorRowsNonIncreasing(product: string, code: string)
    requires product in ExteriorRateTable && code in ExteriorRateTable[product]
    ensures TierRow(ExteriorRateTable[product][code])
  {
    ExteriorCatalogued(product);
  }

  /** Every interior row has a base and a tier-1 price per month, the second no higher. */
  lemma InteriorRowsNonIncreasing(size: string)
    requires size in InteriorRateTable
    ensures |InteriorRateTable[size]| == 2
    ensures 0 <= InteriorRateTable[size][1] <= InteriorRateTable[size][0]
  {
  }
}
