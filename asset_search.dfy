/**
 * The asset search component (src/components/assets/AssetSearch.tsx): the
 * two queries it runs (existing assets matching the text, popular crypto
 * assets) and `searchResults`, which concatenates the two lists, keeps the
 * popular assets that match the text, and then drops every asset whose
 * lower-cased ticker was already seen, so the first occurrence wins.
 */
module AssetSearch {
  import opened Wrappers
  import opened Types
  import opened Text
  import opened Seqs
  import opened QueryCache
  import opened FormUrlEncoded
  import Json
  import Api

  /** The tab the user picked. */
  datatype SearchType = AllSources | ExistingOnly | PopularOnly

  predicate ShowsExisting(t: SearchType) {
    t == AllSources || t == ExistingOnly
  }

  predicate ShowsPopular(t: SearchType) {
    t == AllSources || t == PopularOnly
  }

  // ---- The two queries (lines 47-75) ----

  function ExistingKey(query: string): QueryKey {
    [Name("assets"), Name("search"), Name(query), Name("existing")]
  }

  const PopularKey: QueryKey := [Name("assets"), Name("popular"), Name("crypto")]

  /** The existing-asset query runs only for a text of two or more UTF-16 code units on a tab that shows existing assets. */
  function ExistingEnabled(query: string, t: SearchType): (b: bool)
    ensures b ==> query != ""
    ensures b <==> Utf16Length(query) >= 2 && t != PopularOnly
  {
    Utf16Length(query) >= 2 && (t == AllSources || t == ExistingOnly)
  }

  /** The popular query runs on every tab that shows popular assets, whatever the text. */
  function PopularEnabled(t: SearchType): (b: bool)
    ensures b <==> t != ExistingOnly
  {
    t == AllSources || t == PopularOnly
  }

  /** `Array.isArray(response) ? response : []` on a settled request. */
  function ArrayOrEmpty(r: Api.Result): (q: QueryOutcome)
    ensures r.Err? ==> q == Failed(RequestFailed(r.error))
    ensures r.Ok? ==> q.Data? && q.value.Arr?
    ensures r.Ok? && r.value.Arr? ==> q == Data(r.value)
    ensures r.Ok? && !r.value.Arr? ==> q == Data(Json.Arr([]))
  {
    match r
    case Err(e) => Failed(RequestFailed(e))
    case Ok(v) => if v.Arr? then Data(v) else Data(Json.Arr([]))
  }

  const ExistingSearchPath := "/api/v1/assets/search"
  const PopularPath := "/api/v1/assets/popular"

  /**
   * The existing-asset query function: a text shorter than two UTF-16 code
   * units (the empty text included) resolves to `[]` without a request; otherwise
   * the text and a limit of 20 are sent and a non-array response becomes `[]`.
   */
  method FetchExisting(client: Api.ApiClient, query: string, outcome: Api.FetchOutcome)
    returns (sent: Option<Api.Sent>, q: QueryOutcome)
    ensures Utf16Length(query) < 2 ==> sent.None? && q == Data(Json.Arr([]))
    ensures Utf16Length(query) >= 2 ==> sent.Some? && q == ArrayOrEmpty(Api.Settle(outcome))
    ensures Utf16Length(query) >= 2 && !Api.NullErrorBody(outcome) ==> q == ArrayOrEmpty(Api.SettleAsWritten(outcome))
    ensures Utf16Length(query) >= 2 ==> sent.value.url == client.baseUrl + ExistingSearchPath + "?query=" + Encode(query) + "&limit=20"
    ensures Utf16Length(query) >= 2 ==>
              sent.value.verb == Api.Method.Get && sent.value.headers == [Api.JsonContentType] && sent.value.body.None?
  {
    if query == "" || Utf16Length(query) < 2 {
      return None, Data(Json.Arr([]));
    }
    var s, r := client.Get(ExistingSearchPath, Some([("query", query), ("limit", "20")]), outcome);
    sent := Some(s);
    q := ArrayOrEmpty(r);
    ExistingQuery(client.baseUrl + ExistingSearchPath, query);
  }

  /** Proof step of `FetchExisting`: the URL the existing-asset query sends. */
  lemma ExistingQuery(path: string, query: string)
    ensures path + ("?" + Serialize([("query", query), ("limit", "20")])) == path + "?query=" + Encode(query) + "&limit=20"
  {
    ExistingRecord(query);
    ExistingUrl(path, Encode(query));
  }

  /** Proof step of `ExistingQuery`: the serialized record, with its literal names and limit unescaped. */
  lemma ExistingRecord(query: string)
    ensures Serialize([("query", query), ("limit", "20")]) == "query" + "=" + Encode(query) + "&" + ("limit" + "=" + "20")
  {
    EncodeUnreserved("query");
    EncodeUnreserved("limit");
    EncodeUnreserved("20");
    SerializeTwoPlain("query", query, "limit", "20");
  }

  /** Proof step of `ExistingQuery`: regroups the literal pieces of the URL. */
  lemma ExistingUrl(path: string, encoded: string)
    ensures path + ("?" + ("query" + "=" + encoded + "&" + ("limit" + "=" + "20"))) == path + "?query=" + encoded + "&limit=20"
  {
    assert "?" + ("query" + "=") == "?query=";
    assert "&" + ("limit" + "=" + "20") == "&limit=20";
  }

  /** The popular query function: crypto assets, at most 50, a non-array response becoming `[]`. */
  method FetchPopular(client: Api.ApiClient, outcome: Api.FetchOutcome)
    returns (sent: Api.Sent, q: QueryOutcome)
    ensures sent.url == client.baseUrl + PopularPath + "?asset_type=CRYPTO&limit=50"
    ensures sent.verb == Api.Method.Get && sent.headers == [Api.JsonContentType] && sent.body.None?
    ensures q == ArrayOrEmpty(Api.Settle(outcome))
    ensures !Api.NullErrorBody(outcome) ==> q == ArrayOrEmpty(Api.SettleAsWritten(outcome))
  {
    var r;
    sent, r := client.Get(PopularPath, Some([("asset_type", "CRYPTO"), ("limit", "50")]), outcome);
    q := ArrayOrEmpty(r);
    PopularQuery(client.baseUrl + PopularPath);
  }

  /** Proof step of `FetchPopular`: the URL the popular query sends. */
  lemma PopularQuery(path: string)
    ensures path + ("?" + Serialize([("asset_type", "CRYPTO"), ("limit", "50")])) == path + "?asset_type=CRYPTO&limit=50"
  {
    PopularRecord();
    PopularUrl(path);
  }

  /** Proof step of `PopularQuery`: the serialized record of two unescaped pairs. */
  lemma PopularRecord()
    ensures Serialize([("asset_type", "CRYPTO"), ("limit", "50")]) == "asset_type" + "=" + "CRYPTO" + "&" + ("limit" + "=" + "50")
  {
    SerializeTwo(("asset_type", "CRYPTO"), ("limit", "50"));
    PlainAssetType();
    PlainLimit();
  }

  /** Proof step of `PopularRecord`: the first pair is written without escapes. */
  lemma PlainAssetType()
    ensures SerializePair(("asset_type", "CRYPTO")) == "asset_type" + "=" + "CRYPTO"
  {
    SerializePlainPair("asset_type", "CRYPTO");
  }

  /** Proof step of `PopularRecord`: the second pair is written without escapes. */
  lemma PlainLimit()
    ensures SerializePair(("limit", "50")) == "limit" + "=" + "50"
  {
    SerializePlainPair("limit", "50");
  }

  /** Proof step of `PopularQuery`: regroups the literal pieces of the URL. */
  lemma PopularUrl(path: string)
    ensures path + ("?" + ("asset_type" + "=" + "CRYPTO" + "&" + ("limit" + "=" + "50"))) == path + "?asset_type=CRYPTO&limit=50"
  {
    assert "?" + ("asset_type" + "=" + "CRYPTO" + "&" + ("limit" + "=" + "50")) == "?asset_type=CRYPTO&limit=50";
  }

  // ---- searchResults (lines 78-114) ----

  /** The de-duplication key: the lower-cased ticker. */
  function Key(a: SearchResult): string {
    Lower(a.ticker)
  }

  /** A popular asset is kept when there is no text, or when its ticker or name contains the text, ignoring case. */
  predicate MatchesQuery(a: SearchResult, query: string) {
    query == "" || Includes(Lower(a.ticker), Lower(query)) || Includes(Lower(a.name), Lower(query))
  }

  /** `popularAssets.filter(...)`, written from the end so that each step appends. */
  function MatchingPopular(popular: seq<SearchResult>, query: string): seq<SearchResult>
    decreases |popular|
  {
    if popular == [] then []
    else
      var last := popular[|popular| - 1];
      MatchingPopular(popular[..|popular| - 1], query) + (if MatchesQuery(last, query) then [last] else [])
  }

  /** The list before de-duplication: the shown existing assets, then the shown matching popular ones. */
  function Combined(existing: Option<seq<SearchResult>>, popular: Option<seq<SearchResult>>, t: SearchType, query: string): seq<SearchResult> {
    ExistingPart(existing, t) + PopularPart(popular, t, query)
  }

  function ExistingPart(existing: Option<seq<SearchResult>>, t: SearchType): seq<SearchResult> {
    if existing.Some? && ShowsExisting(t) then existing.value else []
  }

  function PopularPart(popular: Option<seq<SearchResult>>, t: SearchType, query: string): seq<SearchResult> {
    if popular.Some? && ShowsPopular(t) then MatchingPopular(popular.value, query) else []
  }

  /** Keep the elements whose key is neither in `seen` nor taken by an earlier element. */
  function DedupeFrom(xs: seq<SearchResult>, seen: set<string>): seq<SearchResult>
    decreases |xs|
  {
    if xs == [] then []
    else if Key(xs[0]) in seen then DedupeFrom(xs[1..], seen)
    else [xs[0]] + DedupeFrom(xs[1..], seen + {Key(xs[0])})
  }

  /** What `searchResults` evaluates to. */
  function SearchResults(existing: Option<seq<SearchResult>>, popular: Option<seq<SearchResult>>, t: SearchType, query: string): seq<SearchResult> {
    DedupeFrom(Combined(existing, popular, t, query), {})
  }

  /**
   * `searchResults`, as the component computes it: push the shown existing
   * assets, push the popular ones that pass the filter, then filter the whole
   * list against a growing set of seen keys.
   */
  method ComputeSearchResults(existing: Option<seq<SearchResult>>, popular: Option<seq<SearchResult>>, t: SearchType, query: string)
    returns (out: seq<SearchResult>)
    ensures out == SearchResults(existing, popular, t, query)
  {
    var results: seq<SearchResult> := [];
    if existing.Some? && (t == AllSources || t == ExistingOnly) {
      results := results + existing.value;
    }
    if popular.Some? && (t == AllSources || t == PopularOnly) {
      var matching := FilterPopular(popular.value, query);
      results := results + matching;
    }
    assert results == ExistingPart(existing, t) + PopularPart(popular, t, query);
    out := RemoveDuplicates(results);
  }

  /** `popularAssets.filter(...)`: one pass, appending each asset that matches the text. */
  method FilterPopular(popular: seq<SearchResult>, query: string) returns (matching: seq<SearchResult>)
    ensures matching == MatchingPopular(popular, query)
  {
    matching := [];
    var i := 0;
    while i < |popular|
      invariant 0 <= i <= |popular|
      invariant matching == MatchingPopular(popular[..i], query)
    {
      var asset := popular[i];
      var keep := query == "" ||
        Includes(Lower(asset.ticker), Lower(query)) || Includes(Lower(asset.name), Lower(query));
      if keep {
        matching := matching + [asset];
      }
      assert popular[..i + 1][..i] == popular[..i];
      i := i + 1;
    }
    assert popular[..|popular|] == popular;
  }

  /** `results.filter(...)` with the `seen` set: an asset passes when its lower-cased ticker is new. */
  method RemoveDuplicates(results: seq<SearchResult>) returns (out: seq<SearchResult>)
    ensures out == DedupeFrom(results, {})
  {
    var seen: set<string> := {};
    out := [];
    var j := 0;
    while j < |results|
      invariant 0 <= j <= |results|
      invariant out + DedupeFrom(results[j..], seen) == DedupeFrom(results, {})
    {
      var key := Lower(results[j].ticker);
      assert results[j..][1..] == results[j + 1..];
      if key !in seen {
        seen := seen + {key};
        out := out + [results[j]];
      }
      j := j + 1;
    }
    assert results[|results|..] == [];
  }

  // ---- Properties of de-duplication ----

  /** No two kept elements share a key, and no kept key was seen before. */
  lemma {:induction false} DedupeDistinct(xs: seq<SearchResult>, seen: set<string>)
    ensures forall i :: 0 <= i < |DedupeFrom(xs, seen)| ==> Key(DedupeFrom(xs, seen)[i]) !in seen
    ensures forall i, j :: 0 <= i < j < |DedupeFrom(xs, seen)| ==> Key(DedupeFrom(xs, seen)[i]) != Key(DedupeFrom(xs, seen)[j])
    decreases |xs|
  {
    if xs != [] {
      if Key(xs[0]) in seen {
        DedupeDistinct(xs[1..], seen);
        assert DedupeFrom(xs, seen) == DedupeFrom(xs[1..], seen);
      } else {
        var seen' := seen + {Key(xs[0])};
        DedupeDistinct(xs[1..], seen');
        var r := DedupeFrom(xs, seen);
        var tail := DedupeFrom(xs[1..], seen');
        assert r == [xs[0]] + tail;
        forall i | 0 <= i < |r| ensures Key(r[i]) !in seen {
          if i > 0 {
            assert r[i] == tail[i - 1];
          }
        }
        forall i, j | 0 <= i < j < |r| ensures Key(r[i]) != Key(r[j]) {
          assert r[j] == tail[j - 1];
          assert Key(tail[j - 1]) !in seen';
          if i > 0 {
            assert r[i] == tail[i - 1];
          }
        }
      }
    }
  }

  /** De-duplication keeps elements in their original order. */
  lemma {:induction false} DedupeSubsequence(xs: seq<SearchResult>, seen: set<string>)
    ensures IsSubsequence(DedupeFrom(xs, seen), xs)
    decreases |xs|
  {
    if xs != [] {
      if Key(xs[0]) in seen {
        DedupeSubsequence(xs[1..], seen);
        SubsequenceSkip(xs[0], DedupeFrom(xs[1..], seen), xs[1..]);
        assert [xs[0]] + xs[1..] == xs;
      } else {
        DedupeSubsequence(xs[1..], seen + {Key(xs[0])});
        SubsequenceCons(xs[0], DedupeFrom(xs[1..], seen + {Key(xs[0])}), xs[1..]);
        assert [xs[0]] + xs[1..] == xs;
      }
    }
  }

  /** `xs[i]` is the first element of `xs` with its key. */
  predicate FirstWithKey(xs: seq<SearchResult>, i: int) {
    0 <= i < |xs| && forall j :: 0 <= j < i ==> Key(xs[j]) != Key(xs[i])
  }

  /**
   * Every kept element is the first element of the input with its key, and
   * every element that is the first with a key not seen before is kept.
   */
  lemma {:induction false} DedupeFirstOccurrence(xs: seq<SearchResult>, seen: set<string>)
    ensures forall x :: x in DedupeFrom(xs, seen) ==> exists i :: FirstWithKey(xs, i) && xs[i] == x && Key(x) !in seen
    ensures forall i :: FirstWithKey(xs, i) && Key(xs[i]) !in seen ==> xs[i] in DedupeFrom(xs, seen)
    decreases |xs|
  {
    if xs != [] {
      var seen' := if Key(xs[0]) in seen then seen else seen + {Key(xs[0])};
      DedupeFirstOccurrence(xs[1..], seen');
      var tail := DedupeFrom(xs[1..], seen');
      assert DedupeFrom(xs, seen) == if Key(xs[0]) in seen then tail else [xs[0]] + tail;
      forall x | x in DedupeFrom(xs, seen)
        ensures exists i :: FirstWithKey(xs, i) && xs[i] == x && Key(x) !in seen
      {
        if Key(xs[0]) !in seen && x == xs[0] {
          assert FirstWithKey(xs, 0);
        } else {
          assert x in tail;
          var i :| FirstWithKey(xs[1..], i) && xs[1..][i] == x && Key(x) !in seen';
          assert Key(xs[0]) != Key(x);
          assert FirstWithKey(xs, i + 1);
        }
      }
      forall i | FirstWithKey(xs, i) && Key(xs[i]) !in seen
        ensures xs[i] in DedupeFrom(xs, seen)
      {
        if i > 0 {
          assert Key(xs[0]) != Key(xs[i]);
          assert FirstWithKey(xs[1..], i - 1) && xs[1..][i - 1] == xs[i];
        }
      }
    }
  }

  // ---- What the component promises ----

  /** No two entries of the result share a lower-cased ticker. */
  lemma NoDuplicateTickers(existing: Option<seq<SearchResult>>, popular: Option<seq<SearchResult>>, t: SearchType, query: string)
    ensures var r := SearchResults(existing, popular, t, query);
      forall i, j :: 0 <= i < j < |r| ==> Key(r[i]) != Key(r[j])
  {
    DedupeDistinct(Combined(existing, popular, t, query), {});
  }

  /** Every popular asset kept by the filter matches the text, and comes from the popular list. */
  lemma {:induction false} MatchingPopularSound(popular: seq<SearchResult>, query: string)
    ensures forall x :: x in MatchingPopular(popular, query) ==> x in popular && MatchesQuery(x, query)
    ensures IsSubsequence(MatchingPopular(popular, query), popular)
    decreases |popular|
  {
    if popular != [] {
      var init := popular[..|popular| - 1];
      var last := popular[|popular| - 1];
      MatchingPopularSound(init, query);
      assert popular == init + [last];
      if MatchesQuery(last, query) {
        SubsequenceRefl([last]);
      }
      SubsequenceAppend(MatchingPopular(init, query), init, if MatchesQuery(last, query) then [last] else [], [last]);
    }
  }

  /** A popular asset that matches the text is kept by the filter. */
  lemma {:induction false} MatchingPopularComplete(popular: seq<SearchResult>, query: string, x: SearchResult)
    requires x in popular && MatchesQuery(x, query)
    ensures x in MatchingPopular(popular, query)
    decreases |popular|
  {
    var init := popular[..|popular| - 1];
    if x != popular[|popular| - 1] {
      assert popular == init + [popular[|popular| - 1]];
      MatchingPopularComplete(init, query, x);
    }
  }

  /**
   * Every result is a shown existing asset, or a popular asset that matches
   * the text; results keep their input order, so shown existing assets come
   * before popular ones.
   */
  lemma ResultsFromInputs(existing: Option<seq<SearchResult>>, popular: Option<seq<SearchResult>>, t: SearchType, query: string)
    ensures var r := SearchResults(existing, popular, t, query);
      && IsSubsequence(r, ExistingPart(existing, t) + PopularPart(popular, t, query))
      && forall x :: x in r ==>
           (x in ExistingPart(existing, t)) ||
           (popular.Some? && ShowsPopular(t) && x in popular.value && MatchesQuery(x, query))
  {
    var xs := Combined(existing, popular, t, query);
    DedupeSubsequence(xs, {});
    SubsequenceMembers(DedupeFrom(xs, {}), xs);
    if popular.Some? && ShowsPopular(t) {
      MatchingPopularSound(popular.value, query);
    }
  }

  /**
   * With the existing tab only existing assets appear; with the popular tab
   * only popular assets that match the text appear.
   */
  lemma TabExclusions(existing: Option<seq<SearchResult>>, popular: Option<seq<SearchResult>>, query: string)
    ensures forall x :: x in SearchResults(existing, popular, ExistingOnly, query) ==> existing.Some? && x in existing.value
    ensures forall x :: x in SearchResults(existing, popular, PopularOnly, query) ==>
      popular.Some? && x in popular.value && MatchesQuery(x, query)
  {
    ResultsFromInputs(existing, popular, ExistingOnly, query);
    ResultsFromInputs(existing, popular, PopularOnly, query);
  }

  /**
   * Existing assets win: when a shown existing asset and a result share a
   * lower-cased ticker, the result is an existing asset (the first existing
   * one with that ticker).
   */
  lemma ExistingWins(existing: Option<seq<SearchResult>>, popular: Option<seq<SearchResult>>, t: SearchType, query: string,
                     x: SearchResult, e: SearchResult)
    requires x in SearchResults(existing, popular, t, query)
    requires e in ExistingPart(existing, t) && Key(e) == Key(x)
    ensures x in ExistingPart(existing, t)
  {
    var ex := ExistingPart(existing, t);
    var xs := Combined(existing, popular, t, query);
    DedupeFirstOccurrence(xs, {});
    var i :| FirstWithKey(xs, i) && xs[i] == x;
    var m :| 0 <= m < |ex| && ex[m] == e;
    assert xs[m] == e;
    assert i <= m;
    assert xs[i] == ex[i];
  }

  /**
   * Nothing is lost but duplicates: for every lower-cased ticker among the
   * shown assets, the first asset with that ticker is a result.
   */
  lemma FirstOfEachTickerKept(existing: Option<seq<SearchResult>>, popular: Option<seq<SearchResult>>, t: SearchType, query: string, i: int)
    requires FirstWithKey(Combined(existing, popular, t, query), i)
    ensures Combined(existing, popular, t, query)[i] in SearchResults(existing, popular, t, query)
  {
    DedupeFirstOccurrence(Combined(existing, popular, t, query), {});
  }
}
