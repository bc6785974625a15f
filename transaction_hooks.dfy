/**
 * The transaction hooks (src/hooks/useTransactions.ts): the
 * `transactionKeys` hierarchy, the query parameters of the list, recent and
 * per-asset queries, the enablement of the detail and per-asset queries, and
 * the cache operations each mutation issues on success.
 */
module TransactionHooks {
  import opened Wrappers
  import opened Types
  import opened QueryCache
  import opened FormUrlEncoded
  import Text
  import Api

  // ---- transactionKeys (lines 11-18) ----

  const All: QueryKey := [Name("transactions")]

  function Lists(): QueryKey {
    All + [Name("list")]
  }

  function List(search: Option<TransactionSearch>): QueryKey {
    Lists() + [TransactionFilter(search)]
  }

  function Details(): QueryKey {
    All + [Name("detail")]
  }

  function Detail(id: string): QueryKey {
    Details() + [Name(id)]
  }

  /** The literal `['portfolio']` the mutations invalidate. */
  const PortfolioRoot: QueryKey := [Name("portfolio")]

  /** The filter `{ asset_id }` of the per-asset list. */
  function ByAsset(assetId: string): TransactionSearch {
    TransactionSearch(Some(assetId), None, None, None, None)
  }

  /** List keys lie under `lists()`, detail keys under `details()`, and the two branches never meet. */
  lemma KeyHierarchy(s: Option<TransactionSearch>, id: string, other: string)
    ensures IsPrefix(All, Lists()) && IsPrefix(All, Details())
    ensures IsPrefix(Lists(), List(s)) && IsPrefix(Details(), Detail(id))
    ensures !IsPrefix(Lists(), Detail(id)) && !IsPrefix(Details(), List(s))
    ensures Detail(id) == [Name("transactions"), Name("detail"), Name(id)]
    ensures IsPrefix(Detail(other), Detail(id)) <==> id == other
  {
    assert Lists()[1] != Details()[1];
    assert Detail(id)[2] == Name(id);
  }

  // ---- useTransactions (lines 21-48) ----

  /** The parameter names of the list query, in the order the hook assigns them. */
  const ListNames: seq<string> := ["asset_id", "from", "to", "type", "limit"]

  /** Some filter is truthy, so the parameter record is not empty. */
  predicate AnyFilter(search: Option<TransactionSearch>) {
    search.Some? &&
    (PresentText(search.value.assetId) || PresentText(search.value.from) || PresentText(search.value.to) ||
     search.value.txType.Some? || (search.value.limit.Some? && search.value.limit.value != 0))
  }

  /** What each filter contributes: text fields when non-empty, the type literal when set, a non-zero limit in decimal. */
  function ListValues(search: Option<TransactionSearch>): (vs: seq<Option<string>>)
    ensures |vs| == |ListNames|
  {
    match search
    case None => [None, None, None, None, None]
    case Some(s) =>
      [if PresentText(s.assetId) then s.assetId else None,
       if PresentText(s.from) then s.from else None,
       if PresentText(s.to) then s.to else None,
       if s.txType.Some? then Some(TransactionTypeName(s.txType.value)) else None,
       if s.limit.Some? && s.limit.value != 0 then Some(Text.IntToString(s.limit.value)) else None]
  }

  /** The parameter record of the list query, filled by conditional assignment; empty means `undefined`. */
  method ListParams(search: Option<TransactionSearch>) returns (params: Option<seq<Pair>>)
    ensures params == OrUndefined(Record(ListNames, ListValues(search)))
    ensures params.None? <==> !AnyFilter(search)
  {
    var vs := ListValues(search);
    var ps: seq<Pair> := [];
    ps := Assign(ps, "asset_id", vs[0]);
    ps := Assign(ps, "from", vs[1]);
    ps := Assign(ps, "to", vs[2]);
    ps := Assign(ps, "type", vs[3]);
    ps := Assign(ps, "limit", vs[4]);
    RecordFive(ListNames, vs);
    assert ListNames[0] == "asset_id" && ListNames[1] == "from" && ListNames[2] == "to";
    assert ListNames[3] == "type" && ListNames[4] == "limit";
    assert ps == Record(ListNames, vs);
    params := if |ps| > 0 then Some(ps) else None;
    assert params.None? <==> !AnyFilter(search) by {
      ListParamsFields(search);
    }
  }

  /** The list query sends each filter under its own name exactly when it is truthy, and no other name. */
  lemma ListParamsFields(search: Option<TransactionSearch>)
    ensures var params := OrUndefined(Record(ListNames, ListValues(search)));
      && Param(params, "asset_id") == (if search.Some? && PresentText(search.value.assetId) then search.value.assetId else None)
      && Param(params, "from") == (if search.Some? && PresentText(search.value.from) then search.value.from else None)
      && Param(params, "to") == (if search.Some? && PresentText(search.value.to) then search.value.to else None)
      && Param(params, "type") ==
           (if search.Some? && search.value.txType.Some? then Some(TransactionTypeName(search.value.txType.value)) else None)
      && Param(params, "limit") ==
           (if search.Some? && search.value.limit.Some? && search.value.limit.value != 0
            then Some(Text.IntToString(search.value.limit.value)) else None)
      && (params.None? <==> !AnyFilter(search))
      && (params.Some? ==> forall i :: 0 <= i < |params.value| ==> params.value[i].0 in ListNames)
  {
    var vs := ListValues(search);
    assert ListNames[0] == "asset_id" && ListNames[1] == "from" && ListNames[2] == "to";
    assert ListNames[3] == "type" && ListNames[4] == "limit";
    assert Distinct(ListNames);
    RecordEmpty(ListNames, vs);
    RecordNames(ListNames, vs);
    RecordLookup(ListNames, vs, 0);
    RecordLookup(ListNames, vs, 1);
    RecordLookup(ListNames, vs, 2);
    RecordLookup(ListNames, vs, 3);
    RecordLookup(ListNames, vs, 4);
  }

  /** The list query function: a GET of `/transactions`, settling to `response.transactions || []`. */
  method FetchList(client: Api.ApiClient, search: Option<TransactionSearch>, outcome: Api.FetchOutcome)
    returns (sent: Api.Sent, q: QueryOutcome)
    ensures !AnyFilter(search) <==> sent.url == client.baseUrl + Api.Transactions
    ensures Text.StartsWith(sent.url, client.baseUrl + Api.Transactions)
    ensures AnyFilter(search) ==> sent.url[|client.baseUrl + Api.Transactions|] == '?'
    ensures var params := OrUndefined(Record(ListNames, ListValues(search)));
      sent.url == client.baseUrl + Api.Transactions + (if params.Some? then "?" + Serialize(params.value) else "")
    ensures sent.verb == Api.Method.Get && sent.headers == [Api.JsonContentType] && sent.body.None?
    ensures q == FieldOrEmpty(Api.Settle(outcome), "transactions")
    ensures !Api.NullErrorBody(outcome) ==> q == FieldOrEmpty(Api.SettleAsWritten(outcome), "transactions")
  {
    var params := ListParams(search);
    var r;
    sent, r := client.Get(Api.Transactions, params, outcome);
    q := FieldOrEmpty(r, "transactions");
    if params.Some? {
      assert sent.url == client.baseUrl + Api.Transactions + ("?" + Serialize(params.value));
    }
  }

  // ---- useTransaction (lines 51-60) ----

  /** `enabled: !!id`. */
  function DetailEnabled(id: string): (b: bool)
    ensures b <==> |id| > 0
  {
    id != ""
  }

  // ---- Mutations (lines 63-148) ----

  /** The extra invalidation of the per-asset list, issued only for a truthy `asset_id`. */
  function AssetListOps(assetId: string): seq<CacheOp<Transaction>> {
    if assetId != "" then [Invalidate(List(Some(ByAsset(assetId))))] else []
  }

  /** `useCreateTransaction` success; the asset id is the response's. */
  function CreateOps(t: Transaction): seq<CacheOp<Transaction>> {
    [Invalidate(Lists()), SetData(Detail(t.id), t), Invalidate(PortfolioRoot)] + AssetListOps(t.assetId)
  }

  /** `useUpdateTransaction` success: the detail is written under the caller's id, the asset id is the response's. */
  function UpdateOps(id: string, u: Transaction): seq<CacheOp<Transaction>> {
    [SetData(Detail(id), u), Invalidate(Lists()), Invalidate(PortfolioRoot)] + AssetListOps(u.assetId)
  }

  /** `useDeleteTransaction` success. */
  function DeleteOps(id: string): seq<CacheOp<Transaction>> {
    [Remove(Detail(id)), Invalidate(Lists()), Invalidate(PortfolioRoot)]
  }

  /**
   * The per-asset invalidation reaches nothing that `lists()` does not
   * already reach: every key under a per-asset list key is under `lists()`.
   */
  lemma AssetListSubsumed(assetId: string, k: QueryKey)
    requires IsPrefix(List(Some(ByAsset(assetId))), k)
    ensures IsPrefix(Lists(), k)
  {
    assert k[..2] == k[..3][..2];
  }

  /**
   * Creating a transaction stales every list (and so every per-asset list)
   * and every portfolio query, writes only the new transaction under its
   * own id, and issues the per-asset invalidation exactly when the
   * response carries an asset id.
   */
  lemma CreateEffects(t: Transaction, s: Option<TransactionSearch>, id: string, rest: QueryKey)
    ensures InvalidatesKey(CreateOps(t), List(s))
    ensures InvalidatesKey(CreateOps(t), PortfolioRoot + rest)
    ensures !InvalidatesKey(CreateOps(t), Detail(id))
    ensures forall i :: 0 <= i < |CreateOps(t)| && CreateOps(t)[i].SetData? ==> CreateOps(t)[i] == SetData(Detail(t.id), t)
    ensures SetData(Detail(t.id), t) in CreateOps(t)
    ensures Invalidate(List(Some(ByAsset(t.assetId)))) in CreateOps(t) <==> t.assetId != ""
  {
    var ops := CreateOps(t);
    assert ops[0].Invalidate? && IsPrefix(ops[0].key, List(s));
    assert (PortfolioRoot + rest)[..1] == PortfolioRoot;
    assert ops[2].Invalidate? && IsPrefix(ops[2].key, PortfolioRoot + rest);
    assert ops[1] == SetData(Detail(t.id), t);
    if t.assetId != "" {
      assert ops[3] == Invalidate(List(Some(ByAsset(t.assetId))));
      assert List(Some(ByAsset(t.assetId)))[1] != Detail(id)[1];
    }
    assert Detail(id)[1] != Lists()[1] && Detail(id)[0] != PortfolioRoot[0];
  }

  /**
   * An update writes the response under the id the caller passed, never
   * under the response's own id when that differs, and stales lists and
   * portfolio.
   */
  lemma UpdateEffects(id: string, u: Transaction, s: Option<TransactionSearch>, rest: QueryKey)
    ensures InvalidatesKey(UpdateOps(id, u), List(s))
    ensures InvalidatesKey(UpdateOps(id, u), PortfolioRoot + rest)
    ensures forall i :: 0 <= i < |UpdateOps(id, u)| && UpdateOps(id, u)[i].SetData? ==> UpdateOps(id, u)[i] == SetData(Detail(id), u)
    ensures SetData(Detail(id), u) in UpdateOps(id, u)
    ensures u.id != id ==> SetData(Detail(u.id), u) !in UpdateOps(id, u)
    ensures Invalidate(List(Some(ByAsset(u.assetId)))) in UpdateOps(id, u) <==> u.assetId != ""
  {
    var ops := UpdateOps(id, u);
    assert ops[0] == SetData(Detail(id), u);
    assert ops[1].Invalidate? && IsPrefix(ops[1].key, List(s));
    assert (PortfolioRoot + rest)[..1] == PortfolioRoot;
    assert ops[2].Invalidate? && IsPrefix(ops[2].key, PortfolioRoot + rest);
    if u.assetId != "" {
      assert ops[3] == Invalidate(List(Some(ByAsset(u.assetId))));
    }
    if u.id != id {
      assert Detail(u.id)[2] != Detail(id)[2];
    }
  }

  /** A deletion writes no data, drops the deleted detail, and leaves other details valid. */
  lemma DeleteEffects(id: string, other: string, s: Option<TransactionSearch>, rest: QueryKey)
    ensures WritesNothing(DeleteOps(id))
    ensures Remove(Detail(id)) in DeleteOps(id)
    ensures InvalidatesKey(DeleteOps(id), List(s))
    ensures InvalidatesKey(DeleteOps(id), PortfolioRoot + rest)
    ensures !InvalidatesKey(DeleteOps(id), Detail(other))
  {
    var ops := DeleteOps(id);
    assert ops[1].Invalidate? && IsPrefix(ops[1].key, List(s));
    assert (PortfolioRoot + rest)[..1] == PortfolioRoot;
    assert ops[2].Invalidate? && IsPrefix(ops[2].key, PortfolioRoot + rest);
    assert Detail(other)[1] != Lists()[1] && Detail(other)[0] != PortfolioRoot[0];
  }

  // ---- useRecentTransactions (lines 151-166) ----

  /** `limit = 5`: the default applies only when no limit is passed, so an explicit 0 is kept. */
  function RecentLimit(limit: Option<int>): (n: int)
    ensures limit.None? ==> n == 5
    ensures limit.Some? ==> n == limit.value
  {
    limit.GetOr(5)
  }

  function RecentKey(limit: Option<int>): QueryKey {
    List(Some(TransactionSearch(None, None, None, None, Some(RecentLimit(limit)))))
  }

  /** The recent query always sends its limit in decimal, even when it is 0. */
  method FetchRecent(client: Api.ApiClient, limit: Option<int>, outcome: Api.FetchOutcome)
    returns (sent: Api.Sent, q: QueryOutcome)
    ensures sent.url == client.baseUrl + Api.Transactions + "?limit=" + Text.IntToString(RecentLimit(limit))
    ensures sent.verb == Api.Method.Get && sent.headers == [Api.JsonContentType] && sent.body.None?
    ensures q == FieldOrEmpty(Api.Settle(outcome), "transactions")
    ensures !Api.NullErrorBody(outcome) ==> q == FieldOrEmpty(Api.SettleAsWritten(outcome), "transactions")
  {
    var n := if limit.Some? then limit.value else 5;
    var r;
    sent, r := client.Get(Api.Transactions, Some([("limit", Text.IntToString(n))]), outcome);
    q := FieldOrEmpty(r, "transactions");
    EncodeUnreserved("limit");
    SerializeOne("limit", Text.IntToString(n));
    EncodeNumber(n);
    QueryNamed(client.baseUrl + Api.Transactions, Text.IntToString(n));
  }

  /** Proof step of `FetchRecent`: regroups the URL around the `limit` pair. */
  lemma QueryNamed(path: string, value: string)
    ensures path + ("?" + ("limit" + "=" + value)) == path + "?limit=" + value
  {
    assert "?" + ("limit" + "=") == "?limit=";
  }

  // ---- useAssetTransactions (lines 169-185) ----

  function AssetTransactionsKey(assetId: string): QueryKey {
    List(Some(ByAsset(assetId)))
  }

  /** `enabled: !!assetId`. */
  function AssetTransactionsEnabled(assetId: string): (b: bool)
    ensures b <==> |assetId| > 0
  {
    assetId != ""
  }

  /** The per-asset query sends the asset id, escaped, as its one parameter. */
  method FetchForAsset(client: Api.ApiClient, assetId: string, outcome: Api.FetchOutcome)
    returns (sent: Api.Sent, q: QueryOutcome)
    ensures sent.url == client.baseUrl + Api.Transactions + "?asset_id=" + Encode(assetId)
    ensures sent.verb == Api.Method.Get && sent.headers == [Api.JsonContentType] && sent.body.None?
    ensures q == FieldOrEmpty(Api.Settle(outcome), "transactions")
    ensures !Api.NullErrorBody(outcome) ==> q == FieldOrEmpty(Api.SettleAsWritten(outcome), "transactions")
  {
    var r;
    sent, r := client.Get(Api.Transactions, Some([("asset_id", assetId)]), outcome);
    q := FieldOrEmpty(r, "transactions");
    EncodeUnreserved("asset_id");
    SerializeOne("asset_id", assetId);
    QueryAssetId(client.baseUrl + Api.Transactions, Encode(assetId));
  }

  /** Proof step of `FetchForAsset`: regroups the URL around the `asset_id` pair. */
  lemma QueryAssetId(path: string, value: string)
    ensures path + ("?" + ("asset_id" + "=" + value)) == path + "?asset_id=" + value
  {
    assert "?" + ("asset_id" + "=") == "?asset_id=";
  }

  /**
   * Every transaction mutation for an asset marks that asset's transaction
   * list stale, and the recent list too: both are list keys.
   */
  lemma MutationsReachAssetList(t: Transaction, id: string, assetId: string, limit: Option<int>)
    ensures InvalidatesKey(CreateOps(t), AssetTransactionsKey(assetId))
    ensures InvalidatesKey(UpdateOps(id, t), AssetTransactionsKey(assetId))
    ensures InvalidatesKey(DeleteOps(id), AssetTransactionsKey(assetId))
    ensures InvalidatesKey(CreateOps(t), RecentKey(limit))
  {
    CreateEffects(t, Some(ByAsset(assetId)), id, []);
    UpdateEffects(id, t, Some(ByAsset(assetId)), []);
    DeleteEffects(id, id, Some(ByAsset(assetId)), []);
    CreateEffects(t, Some(TransactionSearch(None, None, None, None, Some(RecentLimit(limit)))), id, []);
  }
}
