/**
 * The client's shared records (src/types/index.ts) and the search-result
 * record the asset components exchange. Amounts are exact reals; the
 * rounding of JavaScript's floating point is not part of this model.
 */
module Types {
  import opened Wrappers

  datatype AssetType = Etf | Stock | Crypto | Bond | Cash | Other

  datatype Classification = RentaFija | RentaVariable | Crypto | Alternative | Cash

  datatype TransactionType = Buy | Sell

  /** The wire literal of an asset type. */
  function AssetTypeName(t: AssetType): string {
    match t
    case Etf => "ETF"
    case Stock => "STOCK"
    case Crypto => "CRYPTO"
    case Bond => "BOND"
    case Cash => "CASH"
    case Other => "OTHER"
  }

  /** The asset type a wire literal names, if any. */
  function ParseAssetType(s: string): (r: Option<AssetType>)
    ensures r.Some? <==> s in {"ETF", "STOCK", "CRYPTO", "BOND", "CASH", "OTHER"}
  {
    match s
    case "ETF" => Some(Etf)
    case "STOCK" => Some(Stock)
    case "CRYPTO" => Some(AssetType.Crypto)
    case "BOND" => Some(Bond)
    case "CASH" => Some(AssetType.Cash)
    case "OTHER" => Some(Other)
    case _ => None
  }

  /** The wire literal of a classification. */
  function ClassificationName(c: Classification): string {
    match c
    case RentaFija => "renta_fija"
    case RentaVariable => "renta_variable"
    case Crypto => "crypto"
    case Alternative => "alternative"
    case Cash => "cash"
  }

  /** The classification a wire literal names, if any. */
  function ParseClassification(s: string): (r: Option<Classification>)
    ensures r.Some? <==> s in {"renta_fija", "renta_variable", "crypto", "alternative", "cash"}
  {
    match s
    case "renta_fija" => Some(RentaFija)
    case "renta_variable" => Some(RentaVariable)
    case "crypto" => Some(Classification.Crypto)
    case "alternative" => Some(Alternative)
    case "cash" => Some(Classification.Cash)
    case _ => None
  }

  function TransactionTypeName(t: TransactionType): string {
    match t
    case Buy => "BUY"
    case Sell => "SELL"
  }

  /** Names and parsers are mutually inverse: every enumeration value has exactly one literal. */
  lemma AssetTypeRoundTrip(t: AssetType, s: string)
    ensures ParseAssetType(AssetTypeName(t)) == Some(t)
    ensures ParseAssetType(s) == Some(t) ==> AssetTypeName(t) == s
  {
  }

  lemma ClassificationRoundTrip(c: Classification, s: string)
    ensures ParseClassification(ClassificationName(c)) == Some(c)
    ensures ParseClassification(s) == Some(c) ==> ClassificationName(c) == s
  {
  }

  /** `Asset` / `AssetResponse` (`extra_data` is not modelled). */
  datatype Asset = Asset(
    id: string,
    ticker: string,
    name: string,
    assetType: AssetType,
    classification: Classification,
    currency: string,
    notes: Option<string>,
    createdAt: string,
    updatedAt: Option<string>)

  /** `TransactionResponse`: a transaction with the asset the backend may join in. */
  datatype Transaction = Transaction(
    id: string,
    assetId: string,
    date: string,
    txType: TransactionType,
    quantity: real,
    pricePerUnit: real,
    totalAmount: real,
    currency: string,
    commission: real,
    notes: Option<string>,
    createdAt: string,
    updatedAt: Option<string>,
    asset: Option<Asset>)

  /** `AssetCreate` as the new-asset form sends it (`extra_data`, `account_id` are never set there). */
  datatype AssetCreate = AssetCreate(
    ticker: string,
    name: string,
    assetType: AssetType,
    classification: Classification,
    currency: string,
    notes: Option<string>)

  /** `TransactionCreate`. */
  datatype TransactionCreate = TransactionCreate(
    assetId: string,
    date: string,
    txType: TransactionType,
    quantity: real,
    pricePerUnit: real,
    totalAmount: real,
    currency: string,
    commission: Option<real>,
    notes: Option<string>)

  /** Filters of the asset list (`AssetSearch`); `limit` is a whole number here. */
  datatype AssetSearch = AssetSearch(
    search: Option<string>,
    assetType: Option<AssetType>,
    classification: Option<Classification>,
    limit: Option<int>)

  /** Filters of the transaction list (`TransactionSearch`). */
  datatype TransactionSearch = TransactionSearch(
    assetId: Option<string>,
    from: Option<string>,
    to: Option<string>,
    txType: Option<TransactionType>,
    limit: Option<int>)

  /** Filters of the holdings query (`PortfolioSearch`); the minimum allocation is a whole percentage here. */
  datatype PortfolioSearch = PortfolioSearch(
    assetType: Option<AssetType>,
    classification: Option<Classification>,
    minAllocationPct: Option<int>,
    onlyActive: Option<bool>)

  const NoAssetFilter := AssetSearch(None, None, None, None)
  const NoTransactionFilter := TransactionSearch(None, None, None, None, None)

  datatype AllocationByType = AllocationByType(assetType: string, valueUsd: real, allocationPct: real, count: int)
  datatype AllocationByClassification = AllocationByClassification(classification: string, valueUsd: real, allocationPct: real, count: int)

  /**
   * `AssetSearchResult`, the record the discovery components exchange: an
   * existing asset (with an internal id) or an asset known to an external
   * price source (with an `external_id`). Price and volume figures are
   * display-only and not modelled.
   */
  datatype SearchResult = SearchResult(
    id: Option<string>,
    ticker: string,
    name: string,
    assetType: string,
    classification: string,
    currency: string,
    source: string,
    externalId: Option<string>,
    isPopular: bool,
    popularityRank: Option<int>)

  /** `CustomAssetData`, what the custom-asset form hands to the discovery flow. */
  datatype CustomAssetData = CustomAssetData(
    ticker: string,
    name: string,
    assetType: string,
    classification: string,
    currency: string,
    notes: Option<string>)

  /** A string-valued optional field is truthy when present and non-empty. */
  predicate PresentText(s: Option<string>) {
    s.Some? && s.value != ""
  }
}
