# Aurora client: a verified model of its core

Aurora is a portfolio tracker. Its web client (Next.js, React Query) does
no portfolio arithmetic of its own: it builds requests, normalises the
backend's responses, keeps a query cache keyed by arrays, filters and
de-duplicates lists for display, validates forms, and walks a few small
state machines (asset discovery, session check, route guards). This project
models those pieces in Dafny and proves what each promises.

- `Api` models the HTTP client. `fetch` becomes an input outcome: a rejected
  fetch, or a response with a status and a body that parses or does not. Each
  request gives back the request it sent and how its promise settles: a JSON
  value, `{}` for 204, or an `APIError(status, message, data)`. As written,
  status 0 means a transport failure, an unreadable success body, or a non-2xx
  body that parses to `null` (the first row of "## Findings"). The requests
  settle as the corrected `Settle`, where that last case keeps its status, and
  each request's contract also states that it agrees with the code everywhere
  else.
- `FormUrlEncoded` models the serializer of `URLSearchParams` (section 5.2 of
  the WHATWG URL Standard, `application/x-www-form-urlencoded`), with its
  parser and a round-trip proof for ASCII text.
- `QueryCache`, `AssetHooks`, `TransactionHooks` and `PortfolioHooks` model
  the query keys, the parameter records, and the cache operations each
  mutation issues.
- `AssetSearch`, `AssetsPage` and `TransactionsPage` model the list merge,
  the de-duplication and the filters, over `Seqs` (subsequences and `filter`).
- `NewAssetPage`, `NewTransactionPage` and `CustomAssetForm` model the three
  form schemas, their payloads and their submit handlers.
- `AssetConfirmation`, `AssetDiscovery` and `DiscoveryPage` model the
  discovery flow and the UUID-shape test.
- `Auth` models the session check. `RouteGuards` models the three guards,
  `Sidebar` the active-link test, and `ReactQuery` the retry back-off.
- `Text`, `Json`, `Types` and `Wrappers` are shared helpers: string length
  in UTF-16 code units (as JavaScript's `length` and zod's length checks count
  it), ASCII case mapping, substrings, decimal strings, JavaScript values and truthiness, and
  the application's enumerations.

Handlers that change component state (`useState`) are classes whose
methods update fields. The network, the clock, the browser storage and the
router are parameters and results of those methods.

The client sends no bearer token from `src/lib/api.ts`. It keeps no token
there and has no refresh-and-retry path, and the model follows the code. A
token appears only in the session check of `src/hooks/useAuth.ts`. That hook
calls `fetch` directly: it uses the hard-coded URL
`http://localhost:8000/api/v1/users/me` and sends the stored token as
`Authorization: Bearer <token>`.

## Model

| member | source | states |
|---|---|---|
| Api.BaseUrl | src/lib/api.ts:1 | the base URL is the environment value when it is set and non-empty, and `http://localhost:8000` when it is unset or empty |
| Api.ApiClient.constructor | src/lib/api.ts:17-19 | the client keeps the base URL it was given |
| Api.ApiClient.Request | src/lib/api.ts:21-67 | the URL sent is `baseURL ++ endpoint` with no separator; the only header is `Content-Type: application/json`; the method and body are passed through; the promise settles as `Settle(outcome)`, and a non-2xx response raises `NonOkError`; on every outcome but a non-2xx `null` body this is `SettleAsWritten(outcome)`, the code's own settling |
| Api.NonOkError | src/lib/api.ts:38-51 | a non-2xx response raises an error carrying the response status and the parsed body as data; the message is `String(body.message)` when that member is truthy (a non-empty string kept as is), and `HTTP <status>` when it is missing or falsy; an unparseable body becomes `{message:'Unknown error occurred'}`, which is also the message |
| Api.NonOkAsWrittenAgrees | src/lib/api.ts:38-51 | for every body except `null`, the code as written raises exactly `NonOkError` |
| Api.NullErrorBodyLosesStatus | src/lib/api.ts:46-50 | a 500 response whose body is `null` throws a TypeError, not an `APIError`, so it loses its status; the corrected error keeps 500 |
| Api.SettleAsWrittenAgrees | src/lib/api.ts:38-66 | the code's settling and `Settle` agree on every outcome except a non-2xx body that parses to `null`, which the code rejects with the network error and `Settle` with `NonOkError` |
| Api.SettleZeroStatus | src/lib/api.ts:38-66 | as written, an error with status 0 is always the network error, and only a rejected fetch, an unparseable 2xx body (not 204) or a non-2xx `null` body produces it |
| Api.SettleNonOk | src/lib/api.ts:38-62 | in `Settle`, every non-2xx response is rejected with an `APIError` that has the response status and body, rethrown unchanged; as written the same holds for every body but `null` |
| Api.SettleNoContent | src/lib/api.ts:54-56 | a 204 resolves to `{}` whatever its body, so the body is never read |
| Api.ApiClient.Get | src/lib/api.ts:70-78 | with params the URL is the endpoint, `?` and the form-urlencoded params (a bare `?` for an empty record); without params the endpoint is unchanged; method GET, no body; settles as `Settle`, which is the code's settling on every outcome but a non-2xx `null` body |
| Api.ApiClient.Post | src/lib/api.ts:81-86 | method POST to `baseURL ++ endpoint`; a body is sent iff the data is truthy, and it is that data; settles as `Settle`, which is the code's settling on every outcome but a non-2xx `null` body |
| Api.ApiClient.Put | src/lib/api.ts:89-94 | method PUT; a body is sent iff the data is truthy, and it is that data; settles as `Settle`, which is the code's settling on every outcome but a non-2xx `null` body |
| Api.ApiClient.Delete | src/lib/api.ts:97-99 | method DELETE with no body; settles as `Settle`, which is the code's settling on every outcome but a non-2xx `null` body |
| Api.GetQueryRecoversParams | src/lib/api.ts:72-74 | the query string a GET appends parses back to exactly its parameters, in order (for ASCII names and values) |
| Api.ByIdPaths | src/lib/api.ts:119-123 | `ASSET_BY_ID(id)` is `/assets/` followed by the id verbatim, `TRANSACTION_BY_ID(id)` is `/transactions/` followed by the id; distinct ids give distinct paths, and no asset path equals a transaction path |
| FormUrlEncoded.Names | src/lib/api.ts:73 | the names of a parameter list, in order |
| FormUrlEncoded.Lookup | src/lib/api.ts:73 | a name has a value iff it occurs in the list |
| FormUrlEncoded.Param | src/lib/api.ts:72-74 | a parameter has a value only when a record is passed and holds the name |
| FormUrlEncoded.LookupAppend | src/hooks/useAssets.ts:19-25 | appending entries keeps the value of a name already present and adds those of new names |
| FormUrlEncoded.RecordExtend | src/hooks/useAssets.ts:19-25 | filling the record one name at a time appends exactly that name's entry |
| FormUrlEncoded.Assign | src/hooks/useAssets.ts:21 | `if (value) params[name] = value` appends the entry exactly when the value is present |
| FormUrlEncoded.OrUndefined | src/hooks/useAssets.ts:35 | an empty record is passed as `undefined`, any other record as itself |
| FormUrlEncoded.RecordLookup | src/hooks/useAssets.ts:19-25 | every assigned name has the value it was assigned, and an absent value assigns nothing |
| FormUrlEncoded.RecordEmpty | src/hooks/useAssets.ts:19-35 | the record is empty exactly when no value is present |
| FormUrlEncoded.RecordNames | src/hooks/useAssets.ts:19-25 | the record holds only the names the builder assigns |
| FormUrlEncoded.Utf8 | src/lib/api.ts:73-74 | each character becomes one to four bytes, and an ASCII character becomes its own code |
| FormUrlEncoded.PercentByte | src/lib/api.ts:73-74 | an escaped byte is `%` followed by two upper-case hexadecimal digits |
| FormUrlEncoded.EncodeUnreserved | src/lib/api.ts:73-74 | text made of unreserved characters is its own encoding |
| FormUrlEncoded.EncodeOutput | src/lib/api.ts:73-74 | encoded text contains only unreserved characters, `+`, `%` and hexadecimal digits, so never a bare `&` or `=` |
| FormUrlEncoded.EncodeNumber | src/hooks/useAssets.ts:25 | a decimal number string needs no escaping |
| FormUrlEncoded.SerializeOne | src/lib/api.ts:73-74 | a one-pair record is `name=encoded value` |
| FormUrlEncoded.SerializeTwo | src/lib/api.ts:73-74 | a two-pair record is the two pairs joined by `&` |
| FormUrlEncoded.SerializePlainPair | src/lib/api.ts:73-74 | a pair that needs no escaping is written as `name=value` |
| FormUrlEncoded.DecodeEncode | src/lib/api.ts:73-74 | decoding undoes encoding for ASCII text |
| FormUrlEncoded.SplitSerialize | src/lib/api.ts:73-74 | the serialized record splits at `&` into exactly its serialized pairs |
| FormUrlEncoded.ParseSerialize | src/lib/api.ts:73-74 | parsing the serialized record gives back every ASCII pair, in order |
| Json.Get | src/lib/api.ts:48 | reading a member throws only on `null`; it finds the member of an object that has it and is `undefined` otherwise |
| Json.TruthyScalarString | src/lib/api.ts:48 | a truthy string, number or boolean message converts to a non-empty string |
| QueryCache.FieldOrEmpty | src/hooks/useAssets.ts:37 | `.then(r => r[field] \|\| [])`: a failed request stays failed; a `null` response throws; the field is returned when truthy, else the empty array |
| AssetHooks.KeyHierarchy | src/hooks/useAssets.ts:6-12 | every `list(s)` key has `lists()` as a prefix and every `detail(id)` key has `details()`; neither of `lists()` and `details()` is a prefix of the other; detail keys of distinct ids are distinct |
| AssetHooks.ListValues | src/hooks/useAssets.ts:21-25 | one value slot per parameter name |
| AssetHooks.ListParams | src/hooks/useAssets.ts:19-35 | the record built by conditional assignment is the record of the truthy filters, passed as `undefined` exactly when no filter is truthy |
| AssetHooks.ListParamsFields | src/hooks/useAssets.ts:19-35 | `search`, `asset_type`, `classification` and `limit` are sent iff truthy, each with its value and `limit` in decimal; no other name is sent; an empty record is `undefined` |
| AssetHooks.FetchList | src/hooks/useAssets.ts:18-37 | a GET of `/assets`, no body, whose query string is `?` and the serialized `ListParams` record exactly when some filter is truthy, settling to `response.assets \|\| []` |
| AssetHooks.DetailEnabled | src/hooks/useAssets.ts:49 | the detail query is enabled iff the id is non-empty |
| AssetHooks.CreateEffects | src/hooks/useAssets.ts:62-71 | creation invalidates every list key and every portfolio key, invalidates no detail, and writes only the new asset under `detail(newAsset.id)` |
| AssetHooks.UpdateEffects | src/hooks/useAssets.ts:82-91 | an update writes only under `detail(id)` with the caller's id, and invalidates lists and portfolio |
| AssetHooks.DeleteEffects | src/hooks/useAssets.ts:101-110 | a deletion writes no data, removes `detail(id)`, invalidates lists and portfolio, and leaves every other detail valid |
| AssetHooks.SearchEnabled | src/hooks/useAssets.ts:126 | the search is enabled iff `options.enabled ?? true` and the query's `length` is at least 2, counted in UTF-16 code units |
| AssetHooks.SearchCountsCodeUnits | src/hooks/useAssets.ts:126 | one character beyond U+FFFF (length 2 in JavaScript) enables the search; one ASCII letter does not |
| AssetHooks.Search | src/hooks/useAssets.ts:119-125 | the search is a GET with the JSON content type and no body, sending the escaped query and the literal limit `10`, whatever the query |
| AssetHooks.SearchQueryString | src/hooks/useAssets.ts:122-125 | the search record serializes to `search=<escaped query>&limit=10` |
| AssetHooks.SearchIsList | src/hooks/useAssets.ts:120 | the search key is `list({search, limit: 10})`, under `lists()`, so every asset mutation invalidates it |
| AssetSearch.ExistingEnabled | src/components/assets/AssetSearch.tsx:58-59 | the existing-asset query is enabled iff the query's length in UTF-16 code units is at least 2 and the tab is `all` or `existing` |
| AssetSearch.PopularEnabled | src/components/assets/AssetSearch.tsx:74 | the popular query is enabled iff the tab is `all` or `popular` |
| AssetSearch.ArrayOrEmpty | src/components/assets/AssetSearch.tsx:56-71 | an array response is kept and any other response becomes `[]`; a failed request stays failed |
| AssetSearch.FetchExisting | src/components/assets/AssetSearch.tsx:49-57 | a query shorter than two UTF-16 code units resolves to `[]` with no request; otherwise a GET with the JSON content type and no body sends `query` and limit `20`, and a non-array response becomes `[]` |
| AssetSearch.FetchPopular | src/components/assets/AssetSearch.tsx:66-72 | the popular query is a GET with the JSON content type and no body, sending `asset_type=CRYPTO&limit=50`, and a non-array response becomes `[]` |
| AssetSearch.ComputeSearchResults | src/components/assets/AssetSearch.tsx:78-114 | the imperative merge, push and filter with a `seen` set computes exactly `SearchResults` |
| AssetSearch.FilterPopular | src/components/assets/AssetSearch.tsx:94-102 | the filter loop keeps exactly the popular assets matching the query |
| AssetSearch.RemoveDuplicates | src/components/assets/AssetSearch.tsx:106-113 | the loop with the `seen` set computes the first-occurrence de-duplication |
| AssetSearch.DedupeDistinct | src/components/assets/AssetSearch.tsx:106-113 | no two kept entries share a lower-cased ticker, and no kept key was already seen |
| AssetSearch.DedupeSubsequence | src/components/assets/AssetSearch.tsx:106-113 | de-duplication keeps the input order |
| AssetSearch.DedupeFirstOccurrence | src/components/assets/AssetSearch.tsx:106-113 | every kept entry is the first with its key, and every first entry with an unseen key is kept |
| AssetSearch.NoDuplicateTickers | src/components/assets/AssetSearch.tsx:106-113 | no two search results share a lower-cased ticker |
| AssetSearch.MatchingPopularSound | src/components/assets/AssetSearch.tsx:94-102 | every popular asset kept matches the query (empty, or contained in the ticker or name ignoring case) and comes from the list, in order |
| AssetSearch.MatchingPopularComplete | src/components/assets/AssetSearch.tsx:94-102 | every popular asset that matches the query is kept |
| AssetSearch.ResultsFromInputs | src/components/assets/AssetSearch.tsx:79-113 | results are a subsequence of the shown existing assets followed by the matching popular ones, and each result comes from one of the two lists |
| AssetSearch.TabExclusions | src/components/assets/AssetSearch.tsx:82-93 | on the `existing` tab no popular asset appears; on the `popular` tab only matching popular assets appear |
| AssetSearch.ExistingWins | src/components/assets/AssetSearch.tsx:81-113 | when an existing asset shares a lower-cased ticker with a result, that result is an existing asset |
| AssetSearch.FirstOfEachTickerKept | src/components/assets/AssetSearch.tsx:106-113 | for every ticker among the merged assets, its first asset is a result |
| AssetsPage.ServerQuery | src/app/assets/page.tsx:33-38 | an empty search term is sent as absent, `'ALL'` filters as absent, and the picked values otherwise |
| AssetsPage.ServerQuerySendsParams | src/app/assets/page.tsx:33-38 | the request has a query string iff the term is non-empty or a filter is picked, so none initially |
| AssetsPage.DisplayAssets | src/app/assets/page.tsx:41 | data that is not an array is treated as the empty list |
| Seqs.Filter | src/app/assets/page.tsx:44 | `filter` keeps exactly the elements that pass, and never more elements than it got |
| Seqs.FilterSubsequence | src/app/assets/page.tsx:44 | `filter` preserves order |
| AssetsPage.FilteredIsSubsequence | src/app/assets/page.tsx:44-56 | `filteredAssets` is an order-preserving subsequence of `displayAssets`, holding exactly the received assets that pass all three tests |
| AssetsPage.FilteredMatchesSelects | src/app/assets/page.tsx:50-53 | every shown asset has the picked type and classification unless the filter is `'ALL'` |
| AssetsPage.SearchKeeps | src/app/assets/page.tsx:45-48 | a non-empty search keeps an asset iff its name or ticker contains the term, ignoring case |
| AssetsPage.UnfilteredShowsAll | src/app/assets/page.tsx:44-56 | with an empty term and both filters `'ALL'`, every received asset is shown |
| AssetsPage.NonArrayShowsNothing | src/app/assets/page.tsx:41-44 | non-array data shows nothing |
| AssetsPage.TypesOf | src/app/assets/page.tsx:164 | the set of types contains exactly the types of the shown assets and is no larger than the list |
| AssetsPage.AllAssetTypesSize | src/types/index.ts:2 | there are exactly six asset types |
| AssetsPage.DistinctTypeCountBounds | src/app/assets/page.tsx:164 | the distinct-type count is at most six and at most the number shown, zero iff nothing is shown, and one when a type is picked and something is shown |
| TransactionHooks.KeyHierarchy | src/hooks/useTransactions.ts:11-18 | list keys start with `['transactions','list']`, `detail(id)` is `['transactions','detail',id]`, the two branches never meet, and distinct ids give distinct detail keys |
| TransactionHooks.ListValues | src/hooks/useTransactions.ts:27-31 | one value slot per parameter name |
| TransactionHooks.ListParams | src/hooks/useTransactions.ts:25-41 | the record built by conditional assignment is the record of the truthy filters, and it is `undefined` iff none is truthy |
| TransactionHooks.ListParamsFields | src/hooks/useTransactions.ts:25-41 | `asset_id`, `from`, `to`, `type` and `limit` are sent iff truthy, `limit` in decimal, and no other name is sent |
| TransactionHooks.FetchList | src/hooks/useTransactions.ts:24-43 | a GET of `/transactions`, no body, whose query string is `?` and the serialized `ListParams` record exactly when some filter is truthy, settling to `response.transactions \|\| []` |
| TransactionHooks.DetailEnabled | src/hooks/useTransactions.ts:56 | the detail query is enabled iff the id is non-empty |
| TransactionHooks.AssetListSubsumed | src/hooks/useTransactions.ts:83-86 | every key under a per-asset list key is already under `lists()` |
| TransactionHooks.CreateEffects | src/hooks/useTransactions.ts:69-87 | creation invalidates lists and portfolio, writes only the new transaction under its own id, and invalidates `list({asset_id})` iff `asset_id` is truthy |
| TransactionHooks.UpdateEffects | src/hooks/useTransactions.ts:108-125 | an update writes `detail(id)` under the argument id, never under a differing response id, and invalidates lists and portfolio |
| TransactionHooks.DeleteEffects | src/hooks/useTransactions.ts:137-146 | a deletion writes no data, removes `detail(id)`, invalidates lists and portfolio, and leaves other details valid |
| TransactionHooks.RecentLimit | src/hooks/useTransactions.ts:151 | the limit defaults to 5 only when none is passed |
| TransactionHooks.FetchRecent | src/hooks/useTransactions.ts:151-162 | the recent query is a GET with the JSON content type and no body, and always sends `limit` in decimal, even 0, and settles to `response.transactions \|\| []` |
| TransactionHooks.AssetTransactionsEnabled | src/hooks/useTransactions.ts:181 | the per-asset query is enabled iff the asset id is non-empty |
| TransactionHooks.FetchForAsset | src/hooks/useTransactions.ts:172-180 | the per-asset query is a GET with the JSON content type and no body, sending the escaped asset id as its only parameter, settling to `response.transactions \|\| []` |
| TransactionHooks.MutationsReachAssetList | src/hooks/useTransactions.ts:71-171 | every transaction mutation invalidates every per-asset list, and creation invalidates the recent list |
| PortfolioHooks.KeysUnderAll | src/hooks/usePortfolio.ts:12-20 | every portfolio key has `['portfolio']` as a prefix, the same root the asset and transaction mutations invalidate; the summary defaults to `USD` and allocation to `type` |
| PortfolioHooks.MutationsStalePortfolio | src/hooks/usePortfolio.ts:84-86 | every asset and transaction mutation, and `useInvalidatePortfolio`, invalidates every portfolio key |
| PortfolioHooks.FetchSummary | src/hooks/usePortfolio.ts:23-30 | a GET with the JSON content type and no body; `base_currency` is sent iff the currency is not `USD`, with `USD` as the default |
| PortfolioHooks.HoldingsValues | src/hooks/usePortfolio.ts:43-49 | one value slot per parameter name |
| PortfolioHooks.HoldingsParams | src/hooks/usePortfolio.ts:41-53 | the record built by conditional assignment is the record of the sent filters, `undefined` when empty |
| PortfolioHooks.HoldingsParamsFields | src/hooks/usePortfolio.ts:43-49 | `asset_type`, `classification` and `min_allocation_pct` are sent only when truthy (a minimum of 0 is dropped); `only_active` is sent whenever it is defined, so `false` is sent as `'false'` |
| PortfolioHooks.FetchHoldings | src/hooks/usePortfolio.ts:40-54 | a GET of the holdings path, no body, whose query string is `?` and the serialized `HoldingsParams` record exactly when that record is non-empty |
| PortfolioHooks.SelectAllocation | src/hooks/usePortfolio.ts:71-73 | `holdings.summary[field]` throws on a `null` response or a missing summary, and otherwise gives the field |
| PortfolioHooks.FetchAllocation | src/hooks/usePortfolio.ts:62-74 | the allocation query is a GET of the holdings endpoint with the JSON content type, no parameters and no body, then the grouping's field, defaulting to `type` |
| PortfolioHooks.AllocationFields | src/hooks/usePortfolio.ts:71-73 | `type` reads `allocation_by_type`, and `classification` reads a different field |
| Types.ParseAssetType | src/types/index.ts:2 | a literal names an asset type iff it is one of the six |
| Types.ParseClassification | src/types/index.ts:3-8 | a literal names a classification iff it is one of the five |
| Types.AssetTypeRoundTrip | src/types/index.ts:2 | asset-type names and parsing are mutually inverse |
| Types.ClassificationRoundTrip | src/types/index.ts:3-8 | classification names and parsing are mutually inverse |
| TransactionsPage.DisplayTransactions | src/app/transactions/page.tsx:34 | data that is not an array is treated as the empty list |
| TransactionsPage.FilteredIsSubsequence | src/app/transactions/page.tsx:37-53 | `filteredTransactions` is an order-preserving subsequence holding exactly the received transactions that pass |
| TransactionsPage.UnfilteredShowsAll | src/app/transactions/page.tsx:38-52 | with an empty term and both filters `'ALL'`, every transaction is kept |
| TransactionsPage.ShownTransactions | src/app/transactions/page.tsx:38-52 | a non-empty search and a picked asset type both exclude transactions without an asset; every kept transaction has the picked type |
| TransactionsPage.NoAssetShownIff | src/app/transactions/page.tsx:38-52 | a transaction without an asset is kept iff there is no search, no picked asset type, and its type passes |
| TransactionsPage.NonArrayShowsNothing | src/app/transactions/page.tsx:34-37 | non-array data shows nothing |
| Text.Lower | src/app/assets/page.tsx:47 | `toLowerCase` keeps the length and maps each ASCII character |
| Text.Utf16Length | src/hooks/useAssets.ts:126 | `length` counts one unit per character up to U+FFFF and two beyond it, so it lies between the character count and twice that, and is 0 only for the empty string |
| Text.Upper | src/app/assets/new/page.tsx:125 | `toUpperCase` keeps the length and maps each ASCII character |
| Text.UpperIdentity | src/app/assets/new/page.tsx:125-129 | upper-casing leaves a string without lower-case letters unchanged |
| Text.UpperIdempotent | src/app/transactions/new/page.tsx:154 | upper-casing leaves no lower-case letter and is idempotent |
| Text.IncludesAt | src/app/assets/page.tsx:47-48 | `includes` holds iff the term occurs at some offset |
| Text.IncludesEmpty | src/components/assets/AssetSearch.tsx:98-99 | every string includes the empty string |
| Text.NatToString | src/hooks/useAssets.ts:25 | a rendered natural is non-empty, all digits, and has no leading zero |
| Text.ParseNatToString | src/hooks/useAssets.ts:25 | a rendered natural reads back as itself |
| Text.IntToString | src/hooks/useAssets.ts:25 | `toString` of a whole number is non-empty, made of digits and a minus sign |
| Text.IntToStringRoundTrip | src/hooks/useAssets.ts:25 | `toString` of a whole number reads back as that number |
| NewAssetPage.TickerIssues | src/app/assets/new/page.tsx:44-51 | an empty ticker fails both the required check and the pattern |
| NewAssetPage.IssuesEmptyIffValid | src/app/assets/new/page.tsx:44-70 | a ticker is accepted iff it has 1 to 20 characters from `A-Z0-9.-`; a name iff its length is 1 to 255 UTF-16 code units; a currency iff it is exactly three ASCII upper-case letters |
| NewAssetPage.NameCountsCodeUnits | src/app/assets/new/page.tsx:52-55 | zod counts UTF-16 code units: a name of 128 characters beyond U+FFFF is too long, one of 127 is accepted |
| NewAssetPage.DefaultsRejected | src/app/assets/new/page.tsx:109-116 | the default values cannot be submitted, though their currency `USD` is valid |
| NewAssetPage.LowerCaseRejected | src/app/assets/new/page.tsx:48-70 | a lower-case letter anywhere fails the ticker and the currency |
| NewAssetPage.UpperKeepsAccepted | src/app/assets/new/page.tsx:125-129 | upper-casing an accepted ticker or currency changes nothing |
| NewAssetPage.NotesOrAbsent | src/app/assets/new/page.tsx:130 | notes are present iff non-empty |
| NewAssetPage.Payload | src/app/assets/new/page.tsx:124-131 | the payload carries the accepted ticker, name and currency unchanged, the picked type and classification literals, and notes only when non-empty |
| NewAssetPage.AssetCreateJson | src/app/assets/new/page.tsx:133 | the JSON body is a truthy object holding the ticker, name, `asset_type` and `classification` literals and currency of the payload, `notes` exactly when present, and no other member |
| NewAssetPage.Detail | src/app/assets/new/page.tsx:141 | `err.data?.detail` never throws |
| NewAssetPage.ErrorMessage | src/app/assets/new/page.tsx:140-141 | the message is `data.detail` when truthy, else `message` when non-empty, else the default |
| NewAssetPage.ErrorMessageOfSettled | src/app/assets/new/page.tsx:140-141 | a network failure shows the network message, and a refusal with a `detail` shows that detail |
| NewAssetPage.NewAssetForm.constructor | src/app/assets/new/page.tsx:104-105 | no error, not submitting |
| NewAssetPage.NewAssetForm.Submit | src/app/assets/new/page.tsx:119-147 | POSTs the payload to `/assets` with the JSON content type; success navigates to `/assets` with no error; failure sets the error message and does not navigate; `isSubmitting` ends false either way; the message is the one the code shows for every outcome but a non-2xx `null` body |
| NewTransactionPage.OrZero | src/app/transactions/new/page.tsx:126-144 | `Number(x) \|\| 0`: `NaN` becomes 0 and any other number is kept |
| NewTransactionPage.RecomputedTotal | src/app/transactions/new/page.tsx:123-132 | the total is overwritten with `qty*price + comm` only when quantity and price are both numbers above 0, and is left unchanged otherwise |
| NewTransactionPage.RecomputedTotalPositive | src/app/transactions/new/page.tsx:123-132 | with a non-negative commission, a recomputed total is positive |
| NewTransactionPage.NumberIssues | src/app/transactions/new/page.tsx:47-58 | a number field has no issue iff it is a number at least its minimum; not a number gives only the invalid message |
| NewTransactionPage.IssuesEmptyIffAccepts | src/app/transactions/new/page.tsx:43-71 | the parse finds no issue iff `asset_id` and `date` are non-empty, the currency is three upper-case letters, the amounts reach their minimums and the commission is at least 0 |
| NewTransactionPage.DefaultsFirstIssue | src/app/transactions/new/page.tsx:105-115 | the defaults fail first on the unselected asset |
| NewTransactionPage.ValidationMessage | src/app/transactions/new/page.tsx:166-169 | the message is `path: message` of the first issue, or `'Error de validación'` when there is none |
| NewTransactionPage.ValidationMessageNamesField | src/app/transactions/new/page.tsx:139-170 | a rejected form always names its first failing field, and the fallback is never shown |
| NewTransactionPage.Payload | src/app/transactions/new/page.tsx:147-157 | the payload copies the parsed values, the commission after `\|\| 0` is at least 0, and notes are present only when non-empty |
| NewTransactionPage.NewTransactionForm.constructor | src/app/transactions/new/page.tsx:104-115 | the form starts at its defaults, with today's date and no error |
| NewTransactionPage.NewTransactionForm.RecomputeTotal | src/app/transactions/new/page.tsx:123-132 | the effect changes only `total_amount`, as `RecomputedTotal` says |
| NewTransactionPage.NewTransactionForm.Submit | src/app/transactions/new/page.tsx:134-179 | a rejected form shows the first issue and sends nothing; an accepted one hands `Payload` to the mutation, then navigates to `/transactions` on success or shows `detail`, `message` or the default on failure |
| CustomAssetForm.LooserThanNewAssetSchema | src/components/assets/CustomAssetForm.tsx:23-43 | any ticker of length 1 to 20 and any currency of length 3 (UTF-16 code units) is accepted, with no character or case check: `btc` and `usd` pass here but not on the new-asset page |
| CustomAssetForm.OptionsDifferFromTypes | src/components/assets/CustomAssetForm.tsx:31-39 | `COMMODITY` is offered but is no asset type, `CASH` is refused, and no application classification is accepted |
| CustomAssetForm.FieldOr | src/components/assets/CustomAssetForm.tsx:71-76 | a missing or empty initial field falls back to its default |
| CustomAssetForm.Defaults | src/components/assets/CustomAssetForm.tsx:70-77 | without initial data the defaults are `''`, `''`, `CRYPTO`, `GROWTH`, `USD`, `''`; with initial data each of the six fields is its initial value when that is a non-empty string, else that same fallback |
| CustomAssetForm.DefaultsAccepted | src/components/assets/CustomAssetForm.tsx:22-77 | the default type, classification and currency always pass, so only ticker and name decide; the empty defaults are rejected |
| CustomAssetForm.CustomAssetFormView.constructor | src/components/assets/CustomAssetForm.tsx:60 | not submitting |
| CustomAssetForm.CustomAssetFormView.Submit | src/components/assets/CustomAssetForm.tsx:82-89 | `onSave` gets the data; `isSubmitting` ends false even when `onSave` throws, and the exception propagates |
| AssetConfirmation.JoinedGroupsHaveShape | src/components/assets/AssetConfirmation.tsx:100-104 | five hex groups of 8-4-4-4-12 digits joined by hyphens pass the UUID test |
| AssetConfirmation.ShapeSplitsIntoGroups | src/components/assets/AssetConfirmation.tsx:100-104 | every string that passes is five such groups joined by hyphens |
| AssetConfirmation.NilUuidAccepted | src/components/assets/AssetConfirmation.tsx:102 | the all-zero UUID passes: version and variant are not checked |
| AssetConfirmation.FlagsExclusive | src/components/assets/AssetConfirmation.tsx:100-106 | `isExistingAsset` and `isExternalAsset` are never both true; the id is internal iff present and UUID-shaped; the asset is neither iff the id is not UUID-shaped and `external_id` is empty |
| AssetConfirmation.ConfirmLabel | src/components/assets/AssetConfirmation.tsx:241-245 | `'Confirmando...'` while confirming, else `'Usar Asset'` for an existing asset, else `'Crear Asset'` |
| AssetConfirmation.ConfirmationView.constructor | src/components/assets/AssetConfirmation.tsx:40 | not confirming |
| AssetConfirmation.ConfirmationView.Confirm | src/components/assets/AssetConfirmation.tsx:42-52 | `onConfirm` gets the asset; `isConfirming` ends false whether it succeeds or throws, and its error is rethrown |
| AssetDiscovery.RenderStep | src/components/assets/AssetDiscovery.tsx:125-153 | the search step shows the search; confirmation shows the selected asset, or the load error iff there is no selection |
| AssetDiscovery.OptionalField | src/components/assets/AssetDiscovery.tsx:100-111 | an `undefined` member is left out of the body, and every other member is kept |
| AssetDiscovery.ExternalAssetJson | src/components/assets/AssetDiscovery.tsx:100-111 | the create body is a truthy object; its members are stated member by member in `ExternalAssetCopies` and `ExternalAssetIds` |
| AssetDiscovery.ExternalAssetCopies | src/components/assets/AssetDiscovery.tsx:100-111 | the body copies ticker, name, `asset_type`, classification, currency, source and `is_popular` under their wire names, holds `popularity_rank` exactly when the result has one (with its value), fixes `sync_frequency_hours` at 12, and has no other member |
| AssetDiscovery.ExternalAssetIds | src/components/assets/AssetDiscovery.tsx:107 | `external_id` is sent iff the result has one, and no internal id is ever sent |
| AssetDiscovery.CreatedId | src/components/assets/AssetDiscovery.tsx:113-116 | reading `id` of the POST result throws on a failure or a `null` result, and a string id is kept |
| AssetDiscovery.Forwarded | src/components/assets/AssetDiscovery.tsx:63-82 | an asset that needs no creation is forwarded unchanged; a failed creation forwards nothing; otherwise the asset is forwarded with the id the POST returned |
| AssetDiscovery.StaleIdForwarded | src/components/assets/AssetDiscovery.tsx:77-116 | as written, a new external asset is forwarded with its stale id, not the UUID returned by the POST, so it still does not count as existing |
| AssetDiscovery.ForwardedIsExisting | src/components/assets/AssetDiscovery.tsx:74-116 | when the POST returns a UUID-shaped id, the corrected handler forwards an existing asset that differs only in its id |
| AssetDiscovery.DiscoveryFlow.constructor | src/components/assets/AssetDiscovery.tsx:52-56 | the flow starts at `search` with no selection and not processing |
| AssetDiscovery.DiscoveryFlow.Select | src/components/assets/AssetDiscovery.tsx:58-61 | selecting stores the asset and moves to `confirmation` |
| AssetDiscovery.DiscoveryFlow.BackToSearch | src/components/assets/AssetDiscovery.tsx:91-94 | going back returns to `search` and clears the selection |
| AssetDiscovery.DiscoveryFlow.Confirm | src/components/assets/AssetDiscovery.tsx:63-123 | a POST, with the JSON content type, of the create body to `/assets` happens iff `external_id` is set and the id is not UUID-shaped; the forwarded asset is `Forwarded`, so nothing is forwarded on error; `isProcessing` ends false; the code as written forwards the same asset, except that on the create path its id is the one of the selection the handler started from |
| DiscoveryPage.Render | src/app/assets/discovery/page.tsx:35-175 | discovery mode shows the discovery flow; details show iff discovery is off and an asset is selected; otherwise nothing renders |
| DiscoveryPage.ManualNoticeIff | src/app/assets/discovery/page.tsx:154-156 | the "no automatic prices" text appears iff the asset has a `source` field equal to `'manual'` |
| DiscoveryPage.AssetDiscoveryPage.View | src/app/assets/discovery/page.tsx:35-175 | in every reachable state the page renders something |
| DiscoveryPage.AssetDiscoveryPage.constructor | src/app/assets/discovery/page.tsx:15-18 | the page starts in discovery mode with no selection |
| DiscoveryPage.AssetDiscoveryPage.AssetSelected | src/app/assets/discovery/page.tsx:20-23 | selecting stores the asset, leaves discovery mode and shows its details |
| DiscoveryPage.AssetDiscoveryPage.BackToDiscovery | src/app/assets/discovery/page.tsx:25-28 | going back re-enters discovery mode and clears the selection |
| Auth.MeRequest | src/hooks/useAuth.ts:45-53 | the check GETs `/api/v1/users/me` with `Authorization: Bearer <token>` and no body |
| Auth.VouchedUser | src/hooks/useAuth.ts:108-109 | the backend vouches for a user iff the response is OK and its body parses |
| Auth.CheckOutcome | src/hooks/useAuth.ts:28-149 | no stored token, or an outer exception, ends signed out without clearing; a vouched user ends authenticated with that user and the stored token; anything else clears storage and ends signed out |
| Auth.FinalStates | src/hooks/useAuth.ts:33-148 | every final state has stopped loading; it is authenticated iff it holds a token, which is the stored one; unauthenticated states hold no user; clearing happens only on the way out |
| Auth.AuthenticatedHasUser | src/hooks/useAuth.ts:108-116 | an authenticated state whose body is not `null` holds a user |
| Auth.Session.constructor | src/hooks/useAuth.ts:19-24 | the state starts loading and unauthenticated, with no user and no token |
| Auth.Session.ClearStorage | src/hooks/useAuth.ts:70-71 | removes `auth_token` and expires the cookie, leaving the state alone |
| Auth.Session.CheckAuth | src/hooks/useAuth.ts:27-150 | both the `'authenticated'` branch and the general branch end in `CheckOutcome`; storage is cleared exactly when the outcome says so; a request is sent iff a token is stored and reading it did not throw |
| RouteGuards.GuardRedirect | src/components/auth/AuthGuard.tsx:27-44 | no redirect while loading; `/login` iff the path is protected and unauthenticated; `/` iff the path is public and authenticated |
| RouteGuards.GuardScreen | src/components/auth/AuthGuard.tsx:46-82 | the loading screen iff loading; the children iff not loading and neither redirect condition holds |
| RouteGuards.RouteListsDisjoint | src/components/auth/AuthGuard.tsx:16-25 | no path is both protected and public |
| RouteGuards.GuardEffectMatchesScreen | src/components/auth/AuthGuard.tsx:27-82 | the guard shows a redirect screen iff it pushes that route, and the children iff it neither waits nor redirects |
| RouteGuards.NestedPathsPass | src/components/auth/AuthGuard.tsx:16-40 | membership is exact, so `/assets/new` and `/transactions/new` are never redirected |
| RouteGuards.ProtectedRedirect | src/components/auth/ProtectedRoute.tsx:15-19 | pushes `/login` iff not loading and unauthenticated |
| RouteGuards.ProtectedScreen | src/components/auth/ProtectedRoute.tsx:21-43 | the loading screen iff loading; the children iff loaded and authenticated |
| RouteGuards.ProtectedRouteAgrees | src/components/auth/ProtectedRoute.tsx:15-43 | never redirects when authenticated, shows the redirect screen iff it redirects, and agrees with `AuthGuard` on protected paths |
| RouteGuards.PublicRedirect | src/components/auth/PublicRoute.tsx:15-19 | pushes `/` iff not loading and authenticated |
| RouteGuards.PublicScreen | src/components/auth/PublicRoute.tsx:21-43 | the loading screen iff loading; the children iff loaded and unauthenticated |
| RouteGuards.PublicRouteAgrees | src/components/auth/PublicRoute.tsx:15-43 | never redirects when unauthenticated, shows the redirect screen iff it redirects, and agrees with `AuthGuard` on public paths |
| RouteGuards.ExactlyOneRendersChildren | src/components/auth/PublicRoute.tsx:43 | once loaded, exactly one of `ProtectedRoute` and `PublicRoute` renders its children |
| Sidebar.ActiveIff | src/components/layout/Sidebar.tsx:93-95 | the `/` entry is active only on exactly `/`; any other entry is active iff the path starts with its href |
| Sidebar.PrefixWithoutBoundary | src/components/layout/Sidebar.tsx:93-95 | `/assetsx` activates Activos with no `/` boundary; `/transactions/new` activates Transacciones and not Dashboard |
| Sidebar.AtMostOneActive | src/components/layout/Sidebar.tsx:21-95 | for any path at most one navigation entry is active |
| ReactQuery.Pow2 | src/lib/react-query.tsx:28 | a power of two is at least 1 |
| ReactQuery.RetryDelay | src/lib/react-query.tsx:27-28 | the delay lies between 1000 and 30000 ms and is the cap or `1000·2^n`, whichever is smaller |
| ReactQuery.Pow2Monotone | src/lib/react-query.tsx:28 | a larger exponent gives a power at least as large |
| ReactQuery.DelaySchedule | src/lib/react-query.tsx:27-28 | delays run 1000, 2000 and so on to 16000; the delay is below the cap for n < 5 and equals 30000 for every n ≥ 5 |
| ReactQuery.DelayMonotone | src/lib/react-query.tsx:27-28 | the delay never decreases from one attempt to the next |
| ReactQuery.DelayDoublesBelowCap | src/lib/react-query.tsx:27-28 | below the cap each delay is twice the one before |
| ReactQuery.Retried | src/lib/react-query.tsx:25-33 | after a failure an operation runs again iff its failures so far do not exceed its retry count |
| ReactQuery.RetryCounts | src/lib/react-query.tsx:25-33 | a failing query is retried after its first and second failures but not its third, and a failing mutation only after its first |
| ReactQuery.QueryBackoffTotal | src/lib/react-query.tsx:20-32 | two query retries wait 3000 ms in all, and the stale time is below the gc time |

## Left out

- I/O is not modelled:
  - `fetch`, `localStorage`, `document.cookie`, `router.push`, `window.history`, toasts and `console` become method parameters and results;
  - the clock is the `today` parameter of the new-transaction form.
- React rendering, styles, icons, and every presentation-only component and page are not modelled.
- React Query's cache semantics are not modelled: staleness, garbage collection, refetching (including `refetchOnWindowFocus: false`), and how React Query calls `retryDelay`. The model keeps only the keys built and the cache operations issued, with invalidation as key-prefix matching.
- Concurrency is not modelled: each handler is one sequential step, and async interleavings and effect scheduling are left out.
- Zod's internals are not modelled. Each schema is written out as the checks it declares, in order. Its issue lists are modelled only where a message is shown (the new-transaction form).
- Api.ApiClient.Request: settles as the corrected `Settle`, so a non-2xx response whose body parses to `null` is rejected with its status and `HTTP <status>`, where src/lib/api.ts:46-50 and 59-65 reject it with status 0 and the network message. Every other outcome settles as the code does (`SettleAsWritten`).
- Api.ApiClient.Get: inherits the corrected settling of `Request`, with the same one exception.
- Api.ApiClient.Post: inherits the corrected settling of `Request`, with the same one exception.
- Api.ApiClient.Put: inherits the corrected settling of `Request`, with the same one exception.
- Api.ApiClient.Delete: inherits the corrected settling of `Request`, with the same one exception.
- NewAssetPage.NewAssetForm.Submit: inherits the corrected settling, so for a non-2xx `null` body it shows `HTTP <status>` where the page as written shows `Network error or server unavailable`.
- AssetDiscovery.DiscoveryFlow.Confirm: forwards the id the POST returned, as the second row of "## Findings" intends. Its contract also states that the code as written forwards the same asset with the id of the selection the handler started from.
- Case mapping (`toLowerCase`, `toUpperCase`) covers only the ASCII range; other characters map to themselves.
- Form numbers are a `NaN` or a real number; floating-point rounding is not modelled.
- JSON numbers and the `limit`, `min_allocation_pct` and sync-period values are whole numbers, so a fractional `toString` is not modelled.
- NewTransactionPage.RecomputedTotal: the `toFixed(2)` rounding of the recomputed total is not modelled; the total is the exact `qty*price + comm`.
- NewTransactionPage.NewTransactionForm.Submit: hands the payload to the create mutation as a value. The mutation's POST is `Api.ApiClient.Post`, and its cache effects are `TransactionHooks.CreateEffects`. The payload's JSON encoding is not written out.
- Auth.FinalStates: states "authenticated iff it holds a token" rather than "iff user and token are non-null". An OK response whose body is literally `null` authenticates with a `null` user, and `Auth.AuthenticatedHasUser` covers every other body.
- AssetDiscovery.CreatedId: an `id` in the POST response that is not a string (a number, say) is read as absent, because a search result's id is a string or missing here; the code would forward that value as it is.
- AssetHooks.FetchList, AssetHooks.Search, AssetSearch.FetchExisting, AssetSearch.FetchPopular, TransactionHooks.FetchList, TransactionHooks.FetchRecent, TransactionHooks.FetchForAsset, PortfolioHooks.FetchSummary, PortfolioHooks.FetchHoldings and PortfolioHooks.FetchAllocation: inherit the corrected settling of `Api.ApiClient.Request`, so a non-2xx response whose body parses to `null` reaches them with its status rather than status 0. Each contract also states the result over the code's own settling for every other outcome.
- AssetSearch.FetchExisting: the query key and `staleTime` are not modelled, because they only affect caching.
- The loading flags of the pages (`isLoading` from React Query) are not modelled, because they only choose what is drawn.
- The `Math.floor(n*0.7)` statistic of the assets page (src/app/assets/page.tsx:142) is floating-point presentation and is not modelled.
- The transaction type of the new-transaction form is the `TransactionType` datatype, so a value other than `BUY` or `SELL` cannot arise, and the schema's enum check has no failing case to model.

## Findings

| source | as written | input that shows it | evidently intended | confidence | as-written member | corrected member |
|---|---|---|---|---|---|---|
| src/lib/api.ts:46-50 | `errorData.message` is read without a guard, so a non-2xx body that parses to `null` throws a TypeError; the catch at lines 59-65 turns it into `APIError(0, 'Network error or server unavailable')` | a 500 response with body `null` | an `APIError` with the response status (500) and message `HTTP 500` | not executed | Api.NullErrorBodyLosesStatus | Api.NonOkError |
| src/components/assets/AssetDiscovery.tsx:77 | the created asset is forwarded with `selectedAsset?.id`, the id captured when the handler began, not the id the POST returned at line 116 | an external result with no id and `external_id` `bitcoin`, whose POST returns a UUID | the asset forwarded with the UUID from the POST, so it counts as existing | not executed | AssetDiscovery.StaleIdForwarded | AssetDiscovery.ForwardedIsExisting |
