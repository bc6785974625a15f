/**
 * The asset hooks (src/hooks/useAssets.ts): the `assetKeys` hierarchy, the
 * query parameters the list hook sends, the enablement of the detail and
 * search hooks, and the cache operations each mutation issues on success.
 */
module AssetHooks {
  import opened Wrappers
  import opened Types
  import opened QueryCache
  import opened FormUrlEncoded
  import Text
  import Api

  // ---- assetKeys (lines 6-12) ----

  const All: QueryKey := [Name("assets")]

  function Lists(): QueryKey {
    All + [Name("list")]
  }

  function List(search: Option<AssetSearch>): QueryKey {
    Lists() + [AssetFilter(search)]
  }

  function Details(): QueryKey {
    All + [Name("detail")]
  }

  function Detail(id: string): QueryKey {
    Details() + [Name(id)]
  }

  /** The literal `['portfolio']` the mutations invalidate. */
  const PortfolioRoot: QueryKey := [Name("portfolio")]

  /**
   * Every list key lies under `lists()` and every detail key under
   * `details()`; the two branches part at index 1, so an operation on one
   * never reaches the other, and detail keys of distinct ids are distinct.
   */
  lemma KeyHierarchy(s: Option<AssetSearch>, id: string, other: string)
    ensures IsPrefix(All, Lists()) && IsPrefix(All, Details())
    ensures IsPrefix(Lists(), List(s)) && IsPrefix(Details(), Detail(id))
    ensures !IsPrefix(Lists(), Details()) && !IsPrefix(Details(), Lists())
    ensures !IsPrefix(Lists(), Detail(id)) && !IsPrefix(Details(), List(s))
    ensures IsPrefix(Detail(other), Detail(id)) <==> id == other
  {
    assert Lists()[1] != Details()[1];
    assert Detail(id)[2] == Name(id);
  }

  // ---- useAssets (lines 15-42) ----

  /** Some filter of the list is truthy, so the parameter record is not empty. */
  predicate AnyFilter(search: Option<AssetSearch>) {
    search.Some? &&
    (PresentText(search.value.search) || search.value.assetType.Some? ||
     search.value.classification.Some? || (search.value.limit.Some? && search.value.limit.value != 0))
  }

  /** The parameter names of the list query, in the order the hook assigns them. */
  const ListNames: seq<string> := ["search", "asset_type", "classification", "limit"]

  /**
   * What each filter contributes to the list query: the search text when
   * non-empty, the type and classification literals when set, the limit's
   * decimal string when set and non-zero (`0` is falsy).
   */
  function ListValues(search: Option<AssetSearch>): (vs: seq<Option<string>>)
    ensures |vs| == |ListNames|
  {
    match search
    case None => [None, None, None, None]
    case Some(s) =>
      [if PresentText(s.search) then s.search else None,
       if s.assetType.Some? then Some(AssetTypeName(s.assetType.value)) else None,
       if s.classification.Some? then Some(ClassificationName(s.classification.value)) else None,
       if s.limit.Some? && s.limit.value != 0 then Some(Text.IntToString(s.limit.value)) else None]
  }

  /**
   * The parameter record of the list query (lines 19-25 and 35), filled by
   * conditional assignment; an empty record is passed as `undefined`.
   */
  method ListParams(search: Option<AssetSearch>) returns (params: Option<seq<Pair>>)
    ensures params == OrUndefined(Record(ListNames, ListValues(search)))
    ensures params.None? <==> !AnyFilter(search)
  {
    var vs := ListValues(search);
    var ps: seq<Pair> := [];
    ps := Assign(ps, "search", vs[0]);
    ps := Assign(ps, "asset_type", vs[1]);
    ps := Assign(ps, "classification", vs[2]);
    ps := Assign(ps, "limit", vs[3]);
    RecordFour(ListNames, vs);
    assert ListNames[0] == "search" && ListNames[1] == "asset_type";
    assert ListNames[2] == "classification" && ListNames[3] == "limit";
    assert ps == Record(ListNames, vs);
    params := if |ps| > 0 then Some(ps) else None;
    assert params.None? <==> !AnyFilter(search) by {
      ListParamsFields(search);
    }
  }

  /**
   * The list query sends each filter under its own name exactly when it is
   * truthy, and nothing else; an empty filter object sends no record at all.
   */
  lemma ListParamsFields(search: Option<AssetSearch>)
    ensures var params := OrUndefined(Record(ListNames, ListValues(search)));
      && Param(params, "search") == (if search.Some? && PresentText(search.value.search) then search.value.search else None)
      && Param(params, "asset_type") ==
           (if search.Some? && search.value.assetType.Some? then Some(AssetTypeName(search.value.assetType.value)) else None)
      && Param(params, "classification") ==
           (if search.Some? && search.value.classification.Some?
            then Some(ClassificationName(search.value.classification.value)) else None)
      && Param(params, "limit") ==
           (if search.Some? && search.value.limit.Some? && search.value.limit.value != 0
            then Some(Text.IntToString(search.value.limit.value)) else None)
      && (params.None? <==> !AnyFilter(search))
      && (params.Some? ==> forall i :: 0 <= i < |params.value| ==> params.value[i].0 in ListNames)
  {
    var vs := ListValues(search);
    var r := Record(ListNames, vs);
    assert ListNames[0] == "search" && ListNames[1] == "asset_type";
    assert ListNames[2] == "classification" && ListNames[3] == "limit";
    assert Distinct(ListNames);
    RecordEmpty(ListNames, vs);
    RecordNames(ListNames, vs);
    RecordLookup(ListNames, vs, 0);
    RecordLookup(ListNames, vs, 1);
    RecordLookup(ListNames, vs, 2);
    RecordLookup(ListNames, vs, 3);
  }

  /**
   * The list query function: a GET of `/assets`, with a query string only
   * when some filter is truthy, settling to `response.assets || []`.
   */
  method FetchList(client: Api.ApiClient, search: Option<AssetSearch>, outcome: Api.FetchOutcome)
    returns (sent: Api.Sent, q: QueryOutcome)
    ensures !AnyFilter(search) <==> sent.url == client.baseUrl + Api.Assets
    ensures Text.StartsWith(sent.url, client.baseUrl + Api.Assets)
    ensures AnyFilter(search) ==> sent.url[|client.baseUrl + Api.Assets|] == '?'
    ensures var params := OrUndefined(Record(ListNames, ListValues(search)));
      sent.url == client.baseUrl + Api.Assets + (if params.Some? then "?" + Serialize(params.value) else "")
    ensures sent.verb == Api.Method.Get && sent.headers == [Api.JsonContentType] && sent.body.None?
    ensures q == FieldOrEmpty(Api.Settle(outcome), "assets")
    ensures !Api.NullErrorBody(outcome) ==> q == FieldOrEmpty(Api.SettleAsWritten(outcome), "assets")
  {
    var params := ListParams(search);
    var r;
    sent, r := client.Get(Api.Assets, params, outcome);
    q := FieldOrEmpty(r, "assets");
    if params.Some? {
      assert sent.url == client.baseUrl + Api.Assets + ("?" + Serialize(params.value));
    }
  }

  // ---- useAsset (lines 45-53) ----

  /** `enabled: !!id`. */
  function DetailEnabled(id: string): (b: bool)
    ensures b <==> |id| > 0
  {
    id != ""
  }

  // ---- Mutations (lines 56-112) ----

  /** `useCreateAsset` success: the lists are stale, the new asset is cached under its id, holdings are stale. */
  function CreateOps(newAsset: Asset): seq<CacheOp<Asset>> {
    [Invalidate(Lists()), SetData(Detail(newAsset.id), newAsset), Invalidate(PortfolioRoot)]
  }

  /** `useUpdateAsset` success: the response is cached under the id the caller passed. */
  function UpdateOps(id: string, updated: Asset): seq<CacheOp<Asset>> {
    [SetData(Detail(id), updated), Invalidate(Lists()), Invalidate(PortfolioRoot)]
  }

  /** `useDeleteAsset` success. */
  function DeleteOps(id: string): seq<CacheOp<Asset>> {
    [Remove(Detail(id)), Invalidate(Lists()), Invalidate(PortfolioRoot)]
  }

  /**
   * After creating an asset every list query and every portfolio query is
   * stale, no detail query is invalidated, and the only data written is the
   * new asset under its own id.
   */
  lemma CreateEffects(a: Asset, s: Option<AssetSearch>, id: string, rest: QueryKey)
    ensures InvalidatesKey(CreateOps(a), List(s))
    ensures InvalidatesKey(CreateOps(a), PortfolioRoot + rest)
    ensures !InvalidatesKey(CreateOps(a), Detail(id))
    ensures forall i :: 0 <= i < |CreateOps(a)| && CreateOps(a)[i].SetData? ==> CreateOps(a)[i] == SetData(Detail(a.id), a)
    ensures SetData(Detail(a.id), a) in CreateOps(a)
  {
    var ops := CreateOps(a);
    assert ops[0].Invalidate? && IsPrefix(ops[0].key, List(s));
    assert (PortfolioRoot + rest)[..1] == PortfolioRoot;
    assert ops[2].Invalidate? && IsPrefix(ops[2].key, PortfolioRoot + rest);
    assert Detail(id)[1] != Lists()[1] && Detail(id)[0] != PortfolioRoot[0];
  }

  /** After an update the detail written is the one under the caller's id, and lists and portfolio are stale. */
  lemma UpdateEffects(id: string, u: Asset, s: Option<AssetSearch>, rest: QueryKey)
    ensures InvalidatesKey(UpdateOps(id, u), List(s))
    ensures InvalidatesKey(UpdateOps(id, u), PortfolioRoot + rest)
    ensures forall i :: 0 <= i < |UpdateOps(id, u)| && UpdateOps(id, u)[i].SetData? ==> UpdateOps(id, u)[i] == SetData(Detail(id), u)
    ensures SetData(Detail(id), u) in UpdateOps(id, u)
  {
    var ops := UpdateOps(id, u);
    assert ops[1].Invalidate? && IsPrefix(ops[1].key, List(s));
    assert (PortfolioRoot + rest)[..1] == PortfolioRoot;
    assert ops[2].Invalidate? && IsPrefix(ops[2].key, PortfolioRoot + rest);
  }

  /** A deletion writes no data, drops the deleted asset's detail and leaves every other detail valid. */
  lemma DeleteEffects(id: string, other: string, s: Option<AssetSearch>, rest: QueryKey)
    ensures WritesNothing(DeleteOps(id))
    ensures Remove(Detail(id)) in DeleteOps(id)
    ensures InvalidatesKey(DeleteOps(id), List(s))
    ensures InvalidatesKey(DeleteOps(id), PortfolioRoot + rest)
    ensures !InvalidatesKey(DeleteOps(id), Detail(other))
  {
    var ops := DeleteOps(id);
    assert ops[1].Invalidate? && IsPrefix(ops[1].key, List(s));
    assert (PortfolioRoot + rest)[..1] == PortfolioRoot;
    assert ops[2].Invalidate? && IsPrefix(ops[2].key, PortfolioRoot + rest);
    assert Detail(other)[1] != Lists()[1] && Detail(other)[0] != PortfolioRoot[0];
  }

  // ---- useSearchAssets (lines 115-130) ----

  /** The key of a search: a list key whose filter holds the query and a limit of 10. */
  function SearchKey(query: string): QueryKey {
    List(Some(AssetSearch(Some(query), None, None, Some(10))))
  }

  /** `(options?.enabled ?? true) && query.length >= 2`, the length in UTF-16 code units. */
  function SearchEnabled(enabled: Option<bool>, query: string): (b: bool)
    ensures b <==> (enabled != Some(false) && Text.Utf16Length(query) >= 2)
    ensures b ==> |query| >= 1
  {
    enabled.GetOr(true) && Text.Utf16Length(query) >= 2
  }

  /** One character beyond U+FFFF is already long enough to search for; one ASCII letter is not. */
  lemma SearchCountsCodeUnits()
    ensures SearchEnabled(None, "\U{1F600}")
    ensures !SearchEnabled(None, "a")
  {
    assert Text.Utf16Length("\U{1F600}") == 2;
  }

  /** The search query function: `/assets` with the query and the literal limit `10`, whatever the query. */
  method Search(client: Api.ApiClient, query: string, outcome: Api.FetchOutcome) returns (sent: Api.Sent, r: Api.Result)
    ensures sent.url == client.baseUrl + Api.Assets + "?search=" + Encode(query) + "&limit=10"
    ensures sent.verb == Api.Method.Get && sent.headers == [Api.JsonContentType] && sent.body.None?
    ensures r == Api.Settle(outcome)
    ensures !Api.NullErrorBody(outcome) ==> r == Api.SettleAsWritten(outcome)
  {
    sent, r := client.Get(Api.Assets, Some([("search", query), ("limit", "10")]), outcome);
    SearchQueryString(query);
    QuerySuffix(client.baseUrl + Api.Assets, Encode(query));
  }

  /** The serialization of the search record. */
  lemma SearchQueryString(query: string)
    ensures Serialize([("search", query), ("limit", "10")]) == "search=" + Encode(query) + "&limit=10"
  {
    EncodeUnreserved("search");
    EncodeUnreserved("limit");
    EncodeUnreserved("10");
    SerializeTwoPlain("search", query, "limit", "10");
    SearchLiterals(Encode(query));
  }

  /** Proof step of `SearchQueryString`: regroups the literal pieces of the serialized record. */
  lemma SearchLiterals(encoded: string)
    ensures "search" + "=" + encoded + "&" + ("limit" + "=" + "10") == "search=" + encoded + "&limit=10"
  {
    assert "search" + "=" == "search=";
    assert "&" + ("limit" + "=" + "10") == "&limit=10";
  }

  /** Proof step of `Search`: regroups the URL around the query string. */
  lemma QuerySuffix(path: string, encoded: string)
    ensures path + ("?" + ("search=" + encoded + "&limit=10")) == path + "?search=" + encoded + "&limit=10"
  {
    assert "?" + "search=" == "?search=";
  }

  /** A search is cached under a list key, so every asset mutation marks it stale. */
  lemma SearchIsList(query: string, a: Asset, id: string)
    ensures IsPrefix(Lists(), SearchKey(query))
    ensures InvalidatesKey(CreateOps(a), SearchKey(query))
    ensures InvalidatesKey(UpdateOps(id, a), SearchKey(query))
    ensures InvalidatesKey(DeleteOps(id), SearchKey(query))
  {
    var s := Some(AssetSearch(Some(query), None, None, Some(10)));
    CreateEffects(a, s, id, []);
    UpdateEffects(id, a, s, []);
    DeleteEffects(id, id, s, []);
  }
}
