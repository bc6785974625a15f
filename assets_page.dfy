/**
 * The asset list page (src/app/assets/page.tsx): the filters the user picks
 * are sent to the server as an `AssetSearch`, the answer is normalised to a
 * list, filtered again on the client, and the distinct asset types among the
 * shown assets are counted.
 */
module AssetsPage {
  import opened Wrappers
  import opened Types
  import opened Text
  import opened Seqs
  import AssetHooks

  /**
   * What the user picked: a search text and two select boxes. `None` stands
   * for the `'ALL'` entry of a select box.
   */
  datatype PageFilters = PageFilters(
    searchTerm: string,
    typeFilter: Option<AssetType>,
    classificationFilter: Option<Classification>)

  const Initial := PageFilters("", None, None)

  // ---- The server query (lines 33-38) ----

  /** The filters handed to `useAssets`: an empty text and `'ALL'` become absent. */
  function ServerQuery(f: PageFilters): (s: AssetSearch)
    ensures s.search.None? <==> f.searchTerm == ""
    ensures s.search.Some? ==> s.search.value == f.searchTerm
    ensures s.assetType == f.typeFilter && s.classification == f.classificationFilter
    ensures s.limit.None?
  {
    AssetSearch(
      if f.searchTerm != "" then Some(f.searchTerm) else None,
      f.typeFilter,
      f.classificationFilter,
      None)
  }

  /** The request carries a query string exactly when the user narrowed something. */
  lemma ServerQuerySendsParams(f: PageFilters)
    ensures AssetHooks.AnyFilter(Some(ServerQuery(f))) <==>
      f.searchTerm != "" || f.typeFilter.Some? || f.classificationFilter.Some?
    ensures AssetHooks.AnyFilter(Some(ServerQuery(Initial))) == false
  {
    var s := ServerQuery(f);
    assert PresentText(s.search) <==> f.searchTerm != "";
  }

  // ---- The client-side filter (lines 41-56) ----

  /** `Array.isArray(assets) ? assets : []`: `None` is data that is not an array (or not there yet). */
  function DisplayAssets(data: Option<seq<Asset>>): (xs: seq<Asset>)
    ensures data.None? ==> xs == []
    ensures data.Some? ==> xs == data.value
  {
    data.GetOr([])
  }

  /** The text matches when it is empty, or when the name or the ticker contains it, ignoring case. */
  predicate MatchesSearch(a: Asset, term: string) {
    term == "" || Includes(Lower(a.name), Lower(term)) || Includes(Lower(a.ticker), Lower(term))
  }

  predicate MatchesType(a: Asset, t: Option<AssetType>) {
    t.None? || a.assetType == t.value
  }

  predicate MatchesClassification(a: Asset, c: Option<Classification>) {
    c.None? || a.classification == c.value
  }

  /** The body of the `filter` callback. */
  predicate Keep(f: PageFilters, a: Asset) {
    MatchesSearch(a, f.searchTerm) && MatchesType(a, f.typeFilter) && MatchesClassification(a, f.classificationFilter)
  }

  /** `filteredAssets`. */
  function FilteredAssets(data: Option<seq<Asset>>, f: PageFilters): seq<Asset> {
    Filter(DisplayAssets(data), a => Keep(f, a))
  }

  /**
   * The shown assets are the received ones that pass all three filters, in
   * the order received: an asset is shown iff it was received and passes.
   */
  lemma FilteredIsSubsequence(data: Option<seq<Asset>>, f: PageFilters)
    ensures IsSubsequence(FilteredAssets(data, f), DisplayAssets(data))
    ensures forall a :: a in FilteredAssets(data, f) <==> a in DisplayAssets(data) && Keep(f, a)
  {
    FilterSubsequence(DisplayAssets(data), a => Keep(f, a));
  }

  /** Every shown asset has the picked type and classification, unless the picked entry is `'ALL'`. */
  lemma FilteredMatchesSelects(data: Option<seq<Asset>>, f: PageFilters, a: Asset)
    requires a in FilteredAssets(data, f)
    ensures f.typeFilter.Some? ==> a.assetType == f.typeFilter.value
    ensures f.classificationFilter.Some? ==> a.classification == f.classificationFilter.value
  {
    assert Keep(f, a);
  }

  /** A non-empty search keeps an asset iff its name or ticker contains the text, ignoring case. */
  lemma SearchKeeps(f: PageFilters, a: Asset)
    requires f.searchTerm != ""
    ensures MatchesSearch(a, f.searchTerm) <==>
      (exists i :: OccursAt(Lower(a.name), Lower(f.searchTerm), i)) ||
      (exists i :: OccursAt(Lower(a.ticker), Lower(f.searchTerm), i))
  {
    var term := Lower(f.searchTerm);
    IncludesAt(Lower(a.name), term);
    IncludesAt(Lower(a.ticker), term);
    if Includes(Lower(a.name), term) {
      var i :| OccursAt(Lower(a.name), term, i);
      assert MatchesSearch(a, f.searchTerm);
      assert exists j :: OccursAt(Lower(a.name), Lower(f.searchTerm), j);
    } else if Includes(Lower(a.ticker), term) {
      var i :| OccursAt(Lower(a.ticker), term, i);
      assert MatchesSearch(a, f.searchTerm);
      assert exists j :: OccursAt(Lower(a.ticker), Lower(f.searchTerm), j);
    }
  }

  /** With no text and both select boxes at `'ALL'`, every received asset is shown. */
  lemma UnfilteredShowsAll(data: Option<seq<Asset>>, f: PageFilters)
    requires f.searchTerm == "" && f.typeFilter.None? && f.classificationFilter.None?
    ensures FilteredAssets(data, f) == DisplayAssets(data)
  {
    FilterKeepsAll(DisplayAssets(data), a => Keep(f, a));
  }

  /** Data that is not an array shows nothing, whatever the filters. */
  lemma NonArrayShowsNothing(f: PageFilters)
    ensures FilteredAssets(None, f) == []
  {
  }

  // ---- The distinct-type count (line 164) ----

  /** `new Set(xs.map(a => a.asset_type))`. */
  function TypesOf(xs: seq<Asset>): (s: set<AssetType>)
    ensures |s| <= |xs|
    ensures forall a :: a in xs ==> a.assetType in s
    ensures forall t :: t in s ==> exists a :: a in xs && a.assetType == t
    decreases |xs|
  {
    if xs == [] then {}
    else
      var rest := TypesOf(xs[1..]);
      assert forall a :: a in xs ==> a == xs[0] || a in xs[1..];
      {xs[0].assetType} + rest
  }

  const AllAssetTypes: set<AssetType> := {Etf, Stock, AssetType.Crypto, Bond, AssetType.Cash, Other}

  /** The six asset types, each once. */
  lemma AllAssetTypesSize()
    ensures |AllAssetTypes| == 6
    ensures forall t: AssetType :: t in AllAssetTypes
  {
    assert AllAssetTypes == {Etf} + {Stock} + {AssetType.Crypto} + {Bond} + {AssetType.Cash} + {Other};
    forall t: AssetType ensures t in AllAssetTypes {
      match t
      case Etf =>
      case Stock =>
      case Crypto =>
      case Bond =>
      case Cash =>
      case Other =>
    }
  }

  /** A subset is no larger than its superset. */
  lemma {:induction false} SubsetSize(a: set<AssetType>, b: set<AssetType>)
    requires a <= b
    ensures |a| <= |b|
    decreases |a|
  {
    if a != {} {
      var x :| x in a;
      SubsetSize(a - {x}, b - {x});
    }
  }

  /** The number shown in the "Tipos" card. */
  function DistinctTypeCount(data: Option<seq<Asset>>, f: PageFilters): nat {
    |TypesOf(FilteredAssets(data, f))|
  }

  /**
   * The count is at most six and at most the number of shown assets, is zero
   * exactly when nothing is shown, and is one when a type is picked and
   * something is shown.
   */
  lemma DistinctTypeCountBounds(data: Option<seq<Asset>>, f: PageFilters)
    ensures DistinctTypeCount(data, f) <= 6
    ensures DistinctTypeCount(data, f) <= |FilteredAssets(data, f)|
    ensures DistinctTypeCount(data, f) == 0 <==> FilteredAssets(data, f) == []
    ensures f.typeFilter.Some? && FilteredAssets(data, f) != [] ==> DistinctTypeCount(data, f) == 1
  {
    var xs := FilteredAssets(data, f);
    var s := TypesOf(xs);
    AllAssetTypesSize();
    SubsetSize(s, AllAssetTypes);
    if xs != [] {
      assert xs[0] in xs;
    }
    if f.typeFilter.Some? && xs != [] {
      forall t | t in s ensures t == f.typeFilter.value {
        var a :| a in xs && a.assetType == t;
        FilteredMatchesSelects(data, f, a);
      }
      assert s == {f.typeFilter.value};
    }
  }
}
