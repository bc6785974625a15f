/**
 * Query keys and the cache operations the hooks issue. A key is an array
 * whose entries are names or the filter object a list was fetched with
 * (`undefined` when none); the cache library matches an invalidation
 * against every key that starts with it, so the prefix relation between
 * keys decides what an operation reaches. How the library stores, stales
 * and refetches entries is not part of this model: only the keys built and
 * the operations issued are.
 */
module QueryCache {
  import opened Wrappers
  import opened Types
  import Json
  import Api

  datatype KeyPart =
    | Name(s: string)
    | AssetFilter(assets: Option<AssetSearch>)
    | TransactionFilter(transactions: Option<TransactionSearch>)
    | PortfolioFilter(portfolio: Option<PortfolioSearch>)

  type QueryKey = seq<KeyPart>

  /** `p` is a prefix of `k`: an operation on `p` reaches the query stored under `k`. */
  predicate IsPrefix(p: QueryKey, k: QueryKey) {
    |p| <= |k| && k[..|p|] == p
  }

  /** `invalidateQueries`, `setQueryData` and `removeQueries`, in the order a callback issues them. */
  datatype CacheOp<D> = Invalidate(key: QueryKey) | SetData(key: QueryKey, data: D) | Remove(key: QueryKey)

  /** Some invalidation in `ops` reaches `k`. */
  predicate InvalidatesKey<D>(ops: seq<CacheOp<D>>, k: QueryKey) {
    exists i :: 0 <= i < |ops| && ops[i].Invalidate? && IsPrefix(ops[i].key, k)
  }

  /** `ops` writes no cached data. */
  predicate WritesNothing<D>(ops: seq<CacheOp<D>>) {
    forall i :: 0 <= i < |ops| ==> !ops[i].SetData?
  }

  /** Why a query function rejected: the request failed, or reading the response threw. */
  datatype QueryFailure = RequestFailed(error: Api.ApiError) | TypeErrorThrown

  /** What a query function's promise settles to: a value, `undefined`, or a rejection. */
  datatype QueryOutcome = Data(value: Json.Value) | NoValue | Failed(failure: QueryFailure)

  /**
   * `.then(response => response[field] || [])` on a settled request: the
   * field when it is truthy, else the empty array; a `null` response throws.
   */
  function FieldOrEmpty(r: Api.Result, field: string): (q: QueryOutcome)
    ensures r.Err? ==> q == Failed(RequestFailed(r.error))
    ensures r.Ok? ==> (q == Failed(TypeErrorThrown) <==> r.value.Null?)
    ensures q.Data? && q.value != Json.Arr([]) ==> r.value.Obj? && field in r.value.fields && q.value == r.value.fields[field]
    ensures r.Ok? && r.value.Obj? && field in r.value.fields && Json.Truthy(r.value.fields[field]) ==> q == Data(r.value.fields[field])
    ensures r.Ok? && !r.value.Null? && !(r.value.Obj? && field in r.value.fields && Json.Truthy(r.value.fields[field])) ==>
              q == Data(Json.Arr([]))
  {
    match r
    case Err(e) => Failed(RequestFailed(e))
    case Ok(v) =>
      match Json.Get(v, field)
      case TypeError => Failed(TypeErrorThrown)
      case Undefined => Data(Json.Arr([]))
      case Found(x) => if Json.Truthy(x) then Data(x) else Data(Json.Arr([]))
  }
}
