/**
 * The portfolio hooks (src/hooks/usePortfolio.ts): the `portfolioKeys`
 * hierarchy, the summary and holdings query parameters, and the field the
 * allocation query selects from the holdings response.
 */
module PortfolioHooks {
  import opened Wrappers
  import opened Types
  import opened QueryCache
  import opened FormUrlEncoded
  import Text
  import Json
  import Api
  import AssetHooks
  import TransactionHooks

  /** The grouping of the allocation query. */
  datatype GroupBy = ByType | ByClassification

  function GroupByName(g: GroupBy): string {
    match g
    case ByType => "type"
    case ByClassification => "classification"
  }

  // ---- portfolioKeys (lines 12-20) ----

  const All: QueryKey := [Name("portfolio")]

  /** The summary key; the currency defaults to `USD` when none is passed. */
  function SummaryKey(currency: Option<string>): QueryKey {
    All + [Name("summary"), Name(currency.GetOr("USD"))]
  }

  function HoldingsKey(search: Option<PortfolioSearch>): QueryKey {
    All + [Name("holdings"), PortfolioFilter(search)]
  }

  /** The allocation key; the grouping defaults to `type`. */
  function AllocationKey(groupBy: Option<GroupBy>): QueryKey {
    All + [Name("allocation"), Name(GroupByName(groupBy.GetOr(ByType)))]
  }

  /**
   * Every portfolio key lies under `portfolioKeys.all`, which is the literal
   * `['portfolio']` the asset and transaction mutations invalidate; so every
   * one of those mutations, and `useInvalidatePortfolio`, reaches all of them.
   */
  lemma KeysUnderAll(currency: Option<string>, search: Option<PortfolioSearch>, groupBy: Option<GroupBy>)
    ensures IsPrefix(All, SummaryKey(currency))
    ensures IsPrefix(All, HoldingsKey(search))
    ensures IsPrefix(All, AllocationKey(groupBy))
    ensures All == AssetHooks.PortfolioRoot && All == TransactionHooks.PortfolioRoot
    ensures SummaryKey(None) == SummaryKey(Some("USD")) && AllocationKey(None) == AllocationKey(Some(ByType))
    ensures AllocationKey(Some(ByType)) != AllocationKey(Some(ByClassification))
  {
    assert GroupByName(ByType)[0] != GroupByName(ByClassification)[0];
    assert AllocationKey(Some(ByType))[2] != AllocationKey(Some(ByClassification))[2];
  }

  /** The operations `useInvalidatePortfolio` issues. */
  function InvalidateAllOps(): seq<CacheOp<Json.Value>> {
    [Invalidate(All)]
  }

  /** Creating, updating or deleting an asset or a transaction leaves every portfolio query stale. */
  lemma MutationsStalePortfolio(a: Asset, t: Transaction, id: string, k: QueryKey)
    requires IsPrefix(All, k)
    ensures InvalidatesKey(AssetHooks.CreateOps(a), k)
    ensures InvalidatesKey(AssetHooks.UpdateOps(id, a), k)
    ensures InvalidatesKey(AssetHooks.DeleteOps(id), k)
    ensures InvalidatesKey(TransactionHooks.CreateOps(t), k)
    ensures InvalidatesKey(TransactionHooks.UpdateOps(id, t), k)
    ensures InvalidatesKey(TransactionHooks.DeleteOps(id), k)
    ensures InvalidatesKey(InvalidateAllOps(), k)
  {
    var rest := k[1..];
    assert k == All + rest;
    AssetHooks.CreateEffects(a, None, id, rest);
    AssetHooks.UpdateEffects(id, a, None, rest);
    AssetHooks.DeleteEffects(id, id, None, rest);
    TransactionHooks.CreateEffects(t, None, id, rest);
    TransactionHooks.UpdateEffects(id, t, None, rest);
    TransactionHooks.DeleteEffects(id, id, None, rest);
    assert InvalidateAllOps()[0].Invalidate? && IsPrefix(InvalidateAllOps()[0].key, k);
  }

  // ---- usePortfolioSummary (lines 23-34) ----

  /**
   * The summary query: `base_currency` is sent only for a currency other
   * than `USD` (an absent currency means `USD`).
   */
  method FetchSummary(client: Api.ApiClient, baseCurrency: Option<string>, outcome: Api.FetchOutcome)
    returns (sent: Api.Sent, r: Api.Result)
    ensures baseCurrency.None? || baseCurrency.value == "USD" ==> sent.url == client.baseUrl + Api.PortfolioSummary
    ensures baseCurrency.Some? && baseCurrency.value != "USD" ==>
              sent.url == client.baseUrl + Api.PortfolioSummary + "?base_currency=" + Encode(baseCurrency.value)
    ensures sent.verb == Api.Method.Get && sent.headers == [Api.JsonContentType] && sent.body.None?
    ensures r == Api.Settle(outcome)
    ensures !Api.NullErrorBody(outcome) ==> r == Api.SettleAsWritten(outcome)
  {
    var currency := if baseCurrency.Some? then baseCurrency.value else "USD";
    if currency != "USD" {
      sent, r := client.Get(Api.PortfolioSummary, Some([("base_currency", currency)]), outcome);
      SummaryQuery(client.baseUrl + Api.PortfolioSummary, currency);
    } else {
      sent, r := client.Get(Api.PortfolioSummary, None, outcome);
    }
  }

  /** Proof step of `FetchSummary`: the URL the summary query sends for a currency other than USD. */
  lemma SummaryQuery(path: string, currency: string)
    ensures path + ("?" + Serialize([("base_currency", currency)])) == path + "?base_currency=" + Encode(currency)
  {
    SummaryRecord(currency);
    QueryBaseCurrency(path, Encode(currency));
  }

  /** Proof step of `SummaryQuery`: the serialized one-pair record, with its name unescaped. */
  lemma SummaryRecord(currency: string)
    ensures Serialize([("base_currency", currency)]) == "base_currency" + "=" + Encode(currency)
  {
    EncodeUnreserved("base_currency");
    SerializeOne("base_currency", currency);
  }

  /** Proof step of `SummaryQuery`: regroups the URL around the `base_currency` pair. */
  lemma QueryBaseCurrency(path: string, value: string)
    ensures path + ("?" + ("base_currency" + "=" + value)) == path + "?base_currency=" + value
  {
    assert "?" + ("base_currency" + "=") == "?base_currency=";
  }

  // ---- usePortfolioHoldings (lines 37-59) ----

  const HoldingsNames: seq<string> := ["asset_type", "classification", "min_allocation_pct", "only_active"]

  /** `only_active.toString()`. */
  function BoolString(b: bool): string {
    if b then "true" else "false"
  }

  /**
   * What each filter contributes: the type and classification literals when
   * set, a non-zero minimum allocation in decimal, and `only_active`
   * whenever it is defined (so `false` is sent).
   */
  function HoldingsValues(search: Option<PortfolioSearch>): (vs: seq<Option<string>>)
    ensures |vs| == |HoldingsNames|
  {
    match search
    case None => [None, None, None, None]
    case Some(s) =>
      [if s.assetType.Some? then Some(AssetTypeName(s.assetType.value)) else None,
       if s.classification.Some? then Some(ClassificationName(s.classification.value)) else None,
       if s.minAllocationPct.Some? && s.minAllocationPct.value != 0 then Some(Text.IntToString(s.minAllocationPct.value)) else None,
       if s.onlyActive.Some? then Some(BoolString(s.onlyActive.value)) else None]
  }

  /** The parameter record of the holdings query, filled by conditional assignment; empty means `undefined`. */
  method HoldingsParams(search: Option<PortfolioSearch>) returns (params: Option<seq<Pair>>)
    ensures params == OrUndefined(Record(HoldingsNames, HoldingsValues(search)))
  {
    var vs := HoldingsValues(search);
    var ps: seq<Pair> := [];
    ps := Assign(ps, "asset_type", vs[0]);
    ps := Assign(ps, "classification", vs[1]);
    ps := Assign(ps, "min_allocation_pct", vs[2]);
    ps := Assign(ps, "only_active", vs[3]);
    RecordFour(HoldingsNames, vs);
    assert HoldingsNames[0] == "asset_type" && HoldingsNames[1] == "classification";
    assert HoldingsNames[2] == "min_allocation_pct" && HoldingsNames[3] == "only_active";
    assert ps == Record(HoldingsNames, vs);
    params := if |ps| > 0 then Some(ps) else None;
  }

  /**
   * The holdings query sends `asset_type`, `classification` and
   * `min_allocation_pct` only when truthy (a minimum of 0 is dropped), and
   * `only_active` whenever it is defined, as `"true"` or `"false"`.
   */
  lemma HoldingsParamsFields(search: Option<PortfolioSearch>)
    ensures var params := OrUndefined(Record(HoldingsNames, HoldingsValues(search)));
      && Param(params, "asset_type") ==
           (if search.Some? && search.value.assetType.Some? then Some(AssetTypeName(search.value.assetType.value)) else None)
      && Param(params, "classification") ==
           (if search.Some? && search.value.classification.Some?
            then Some(ClassificationName(search.value.classification.value)) else None)
      && Param(params, "min_allocation_pct") ==
           (if search.Some? && search.value.minAllocationPct.Some? && search.value.minAllocationPct.value != 0
            then Some(Text.IntToString(search.value.minAllocationPct.value)) else None)
      && (search.Some? && search.value.onlyActive == Some(false) ==> Param(params, "only_active") == Some("false"))
      && (search.Some? && search.value.onlyActive == Some(true) ==> Param(params, "only_active") == Some("true"))
      && (search.None? || search.value.onlyActive.None? ==> Param(params, "only_active") == None)
      && (params.Some? ==> forall i :: 0 <= i < |params.value| ==> params.value[i].0 in HoldingsNames)
  {
    var vs := HoldingsValues(search);
    assert HoldingsNames[0] == "asset_type" && HoldingsNames[1] == "classification";
    assert HoldingsNames[2] == "min_allocation_pct" && HoldingsNames[3] == "only_active";
    assert Distinct(HoldingsNames);
    RecordEmpty(HoldingsNames, vs);
    RecordNames(HoldingsNames, vs);
    RecordLookup(HoldingsNames, vs, 0);
    RecordLookup(HoldingsNames, vs, 1);
    RecordLookup(HoldingsNames, vs, 2);
    RecordLookup(HoldingsNames, vs, 3);
  }

  /**
   * The holdings query function: a GET of `/portfolio/holdings`, with the
   * serialized parameter record when it is not empty.
   */
  method FetchHoldings(client: Api.ApiClient, search: Option<PortfolioSearch>, outcome: Api.FetchOutcome)
    returns (sent: Api.Sent, r: Api.Result)
    ensures Text.StartsWith(sent.url, client.baseUrl + Api.PortfolioHoldings)
    ensures sent.url == client.baseUrl + Api.PortfolioHoldings <==> Record(HoldingsNames, HoldingsValues(search)) == []
    ensures var params := OrUndefined(Record(HoldingsNames, HoldingsValues(search)));
      sent.url == client.baseUrl + Api.PortfolioHoldings + (if params.Some? then "?" + Serialize(params.value) else "")
    ensures sent.verb == Api.Method.Get && sent.headers == [Api.JsonContentType] && sent.body.None?
    ensures r == Api.Settle(outcome)
    ensures !Api.NullErrorBody(outcome) ==> r == Api.SettleAsWritten(outcome)
  {
    var params := HoldingsParams(search);
    sent, r := client.Get(Api.PortfolioHoldings, params, outcome);
    if params.Some? {
      assert sent.url == client.baseUrl + Api.PortfolioHoldings + ("?" + Serialize(params.value));
    }
  }

  // ---- usePortfolioAllocation (lines 62-78) ----

  /** The summary field the allocation query returns for a grouping. */
  function AllocationField(g: GroupBy): string {
    match g
    case ByType => "allocation_by_type"
    case ByClassification => "allocation_by_classification"
  }

  /**
   * `holdings.summary[field]` on a settled request: a `null` response or a
   * response without `summary` throws, a summary without the field gives
   * `undefined`.
   */
  function SelectAllocation(r: Api.Result, field: string): (q: QueryOutcome)
    ensures r.Err? ==> q == Failed(RequestFailed(r.error))
    ensures q.Data? <==> r.Ok? && Json.Get(r.value, "summary").Then(field).Found?
    ensures q.Data? ==> q.value == r.value.fields["summary"].fields[field]
    ensures q == Failed(TypeErrorThrown) <==> r.Ok? && !(r.value.Obj? && "summary" in r.value.fields && !r.value.fields["summary"].Null?)
  {
    match r
    case Err(e) => Failed(RequestFailed(e))
    case Ok(v) =>
      match Json.Get(v, "summary").Then(field)
      case TypeError => Failed(TypeErrorThrown)
      case Undefined => NoValue
      case Found(x) => Data(x)
  }

  /** The allocation query: the holdings endpoint without parameters, then the grouping's field. */
  method FetchAllocation(client: Api.ApiClient, groupBy: Option<GroupBy>, outcome: Api.FetchOutcome)
    returns (sent: Api.Sent, q: QueryOutcome)
    ensures sent.url == client.baseUrl + Api.PortfolioHoldings
    ensures sent.verb == Api.Method.Get && sent.headers == [Api.JsonContentType] && sent.body.None?
    ensures q == SelectAllocation(Api.Settle(outcome), AllocationField(groupBy.GetOr(ByType)))
    ensures !Api.NullErrorBody(outcome) ==> q == SelectAllocation(Api.SettleAsWritten(outcome), AllocationField(groupBy.GetOr(ByType)))
  {
    var g := if groupBy.Some? then groupBy.value else ByType;
    var r;
    sent, r := client.Get(Api.PortfolioHoldings, None, outcome);
    q := SelectAllocation(r, if g == ByType then "allocation_by_type" else "allocation_by_classification");
  }

  /** The two groupings read different fields of the same response; the default reads the by-type one. */
  lemma AllocationFields(r: Api.Result)
    ensures AllocationField(ByType) != AllocationField(ByClassification)
    ensures r.Ok? && r.value.Obj? && "summary" in r.value.fields && r.value.fields["summary"].Obj? &&
            "allocation_by_type" in r.value.fields["summary"].fields ==>
              SelectAllocation(r, AllocationField(ByType)) == Data(r.value.fields["summary"].fields["allocation_by_type"])
  {
    assert |AllocationField(ByType)| != |AllocationField(ByClassification)|;
  }
}
