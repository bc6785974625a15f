/**
 * The transaction list page (src/app/transactions/page.tsx): the received
 * list is normalised and filtered on the client by a text, the transaction
 * type and the type of the joined asset, which a transaction may lack.
 */
module TransactionsPage {
  import opened Wrappers
  import opened Types
  import opened Text
  import opened Seqs

  /** What the user picked; `None` stands for the `'ALL'` entry of a select box. */
  datatype PageFilters = PageFilters(
    searchTerm: string,
    typeFilter: Option<TransactionType>,
    assetTypeFilter: Option<AssetType>)

  /** `Array.isArray(transactions) ? transactions : []`. */
  function DisplayTransactions(data: Option<seq<Transaction>>): (xs: seq<Transaction>)
    ensures data.None? ==> xs == []
    ensures data.Some? ==> xs == data.value
  {
    data.GetOr([])
  }

  /**
   * `transaction.asset?.name?.toLowerCase().includes(term)`: a missing asset
   * yields `undefined`, which is falsy.
   */
  predicate AssetNameIncludes(t: Transaction, term: string) {
    t.asset.Some? && Includes(Lower(t.asset.value.name), Lower(term))
  }

  predicate AssetTickerIncludes(t: Transaction, term: string) {
    t.asset.Some? && Includes(Lower(t.asset.value.ticker), Lower(term))
  }

  predicate MatchesSearch(t: Transaction, term: string) {
    term == "" || AssetNameIncludes(t, term) || AssetTickerIncludes(t, term)
  }

  predicate MatchesType(t: Transaction, f: Option<TransactionType>) {
    f.None? || t.txType == f.value
  }

  /** `transaction.asset?.asset_type === assetTypeFilter`: `undefined` never equals a picked type. */
  predicate MatchesAssetType(t: Transaction, f: Option<AssetType>) {
    f.None? || (t.asset.Some? && t.asset.value.assetType == f.value)
  }

  /** The body of the `filter` callback. */
  predicate Keep(f: PageFilters, t: Transaction) {
    MatchesSearch(t, f.searchTerm) && MatchesType(t, f.typeFilter) && MatchesAssetType(t, f.assetTypeFilter)
  }

  /** `filteredTransactions`. */
  function FilteredTransactions(data: Option<seq<Transaction>>, f: PageFilters): seq<Transaction> {
    Filter(DisplayTransactions(data), t => Keep(f, t))
  }

  /** The shown transactions are the received ones that pass, in the order received. */
  lemma FilteredIsSubsequence(data: Option<seq<Transaction>>, f: PageFilters)
    ensures IsSubsequence(FilteredTransactions(data, f), DisplayTransactions(data))
    ensures forall t :: t in FilteredTransactions(data, f) <==> t in DisplayTransactions(data) && Keep(f, t)
  {
    FilterSubsequence(DisplayTransactions(data), t => Keep(f, t));
  }

  /** With no text and both select boxes at `'ALL'`, every received transaction is shown. */
  lemma UnfilteredShowsAll(data: Option<seq<Transaction>>, f: PageFilters)
    requires f.searchTerm == "" && f.typeFilter.None? && f.assetTypeFilter.None?
    ensures FilteredTransactions(data, f) == DisplayTransactions(data)
  {
    FilterKeepsAll(DisplayTransactions(data), t => Keep(f, t));
  }

  /**
   * A transaction without a joined asset is hidden by any text and by any
   * picked asset type; every shown transaction has the picked type.
   */
  lemma ShownTransactions(data: Option<seq<Transaction>>, f: PageFilters, t: Transaction)
    requires t in FilteredTransactions(data, f)
    ensures f.searchTerm != "" ==> t.asset.Some?
    ensures f.assetTypeFilter.Some? ==> t.asset.Some? && t.asset.value.assetType == f.assetTypeFilter.value
    ensures f.typeFilter.Some? ==> t.txType == f.typeFilter.value
    ensures t in DisplayTransactions(data)
  {
    assert Keep(f, t);
  }

  /** Without a joined asset, a transaction is shown iff there is no text and no picked asset type (and its type passes). */
  lemma NoAssetShownIff(f: PageFilters, t: Transaction)
    requires t.asset.None?
    ensures Keep(f, t) <==> f.searchTerm == "" && f.assetTypeFilter.None? && MatchesType(t, f.typeFilter)
  {
  }

  /** Data that is not an array shows nothing. */
  lemma NonArrayShowsNothing(f: PageFilters)
    ensures FilteredTransactions(None, f) == []
  {
  }
}
