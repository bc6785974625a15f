/**
 * The asset discovery flow (src/components/assets/AssetDiscovery.tsx): a
 * two-step state machine (search, then confirmation) over the picked search
 * result, and the confirm handler that either forwards an existing asset or
 * first creates an external one through `POST /assets`.
 */
module AssetDiscovery {
  import opened Wrappers
  import opened Types
  import Json
  import Api
  import AssetConfirmation

  datatype Step = SearchStep | ConfirmationStep

  /** What the step area shows. */
  datatype StepView = SearchView | ConfirmView(asset: SearchResult) | LoadError

  /** `renderStepContent` (lines 125-153). */
  function RenderStep(step: Step, selected: Option<SearchResult>): (v: StepView)
    ensures step == SearchStep ==> v == SearchView
    ensures step == ConfirmationStep && selected.Some? ==> v == ConfirmView(selected.value)
    ensures v == LoadError <==> step == ConfirmationStep && selected.None?
  {
    match step
    case SearchStep => SearchView
    case ConfirmationStep => if selected.Some? then ConfirmView(selected.value) else LoadError
  }

  // ---- The create request (lines 96-122) ----

  /** `undefined` members are left out by `JSON.stringify`. */
  function OptionalField(fields: map<string, Json.Value>, key: string, v: Option<Json.Value>): (r: map<string, Json.Value>)
    ensures key in r <==> key in fields || v.Some?
    ensures v.Some? ==> r[key] == v.value
    ensures forall k :: k in fields && k != key ==> k in r && r[k] == fields[k]
    ensures forall k :: k in r && k != key ==> k in fields
  {
    if v.Some? then fields[key := v.value] else fields
  }

  /** The members `assetData` always has. */
  function BaseFields(a: SearchResult): map<string, Json.Value> {
    map[
      "ticker" := Json.Str(a.ticker),
      "name" := Json.Str(a.name),
      "asset_type" := Json.Str(a.assetType),
      "classification" := Json.Str(a.classification),
      "currency" := Json.Str(a.currency),
      "source" := Json.Str(a.source),
      "is_popular" := Json.Bool(a.isPopular),
      "sync_frequency_hours" := Json.Num(12)]
  }

  function OptionalString(v: Option<string>): Option<Json.Value> {
    if v.Some? then Some(Json.Str(v.value)) else None
  }

  function OptionalNumber(v: Option<int>): Option<Json.Value> {
    if v.Some? then Some(Json.Num(v.value)) else None
  }

  /** `assetData`: the search result's fields and a sync period of 12 hours; absent optional fields are left out. */
  function ExternalAssetJson(a: SearchResult): (j: Json.Value)
    ensures j.Obj? && Json.Truthy(j)
  {
    Json.Obj(OptionalField(OptionalField(BaseFields(a), "external_id", OptionalString(a.externalId)),
      "popularity_rank", OptionalNumber(a.popularityRank)))
  }

  /**
   * Every member of the search result is copied under its wire name, the
   * popularity rank only when the result has one, and the sync period is 12;
   * nothing else is sent.
   */
  lemma ExternalAssetCopies(a: SearchResult)
    ensures "sync_frequency_hours" in ExternalAssetJson(a).fields && ExternalAssetJson(a).fields["sync_frequency_hours"] == Json.Num(12)
    ensures "ticker" in ExternalAssetJson(a).fields && ExternalAssetJson(a).fields["ticker"] == Json.Str(a.ticker)
    ensures "name" in ExternalAssetJson(a).fields && ExternalAssetJson(a).fields["name"] == Json.Str(a.name)
    ensures "asset_type" in ExternalAssetJson(a).fields && ExternalAssetJson(a).fields["asset_type"] == Json.Str(a.assetType)
    ensures "classification" in ExternalAssetJson(a).fields
      && ExternalAssetJson(a).fields["classification"] == Json.Str(a.classification)
    ensures "currency" in ExternalAssetJson(a).fields && ExternalAssetJson(a).fields["currency"] == Json.Str(a.currency)
    ensures "source" in ExternalAssetJson(a).fields && ExternalAssetJson(a).fields["source"] == Json.Str(a.source)
    ensures "is_popular" in ExternalAssetJson(a).fields && ExternalAssetJson(a).fields["is_popular"] == Json.Bool(a.isPopular)
    ensures "popularity_rank" in ExternalAssetJson(a).fields <==> a.popularityRank.Some?
    ensures a.popularityRank.Some? ==> ExternalAssetJson(a).fields["popularity_rank"] == Json.Num(a.popularityRank.value)
    ensures ExternalAssetJson(a).fields.Keys <= {"ticker", "name", "asset_type", "classification", "currency", "source",
      "external_id", "is_popular", "popularity_rank", "sync_frequency_hours"}
  {
    var base := BaseFields(a);
    assert base["sync_frequency_hours"] == Json.Num(12) && base["ticker"] == Json.Str(a.ticker);
    assert base["name"] == Json.Str(a.name) && base["asset_type"] == Json.Str(a.assetType);
    assert base["classification"] == Json.Str(a.classification) && base["currency"] == Json.Str(a.currency);
    assert base["source"] == Json.Str(a.source) && base["is_popular"] == Json.Bool(a.isPopular);
    assert "popularity_rank" !in base;
  }

  /** The external id is sent exactly when the result has one, and no internal id is ever sent. */
  lemma ExternalAssetIds(a: SearchResult)
    ensures "external_id" in ExternalAssetJson(a).fields <==> a.externalId.Some?
    ensures a.externalId.Some? ==> ExternalAssetJson(a).fields["external_id"] == Json.Str(a.externalId.value)
    ensures "id" !in ExternalAssetJson(a).fields
  {
    var base := BaseFields(a);
    assert "external_id" !in base && "id" !in base;
  }

  /**
   * `(createdAsset as any).id` on the settled POST: a failure, or reading
   * `id` of `null`, throws; a string id is kept; any other member is
   * `undefined` here.
   */
  function CreatedId(r: Api.Result): (id: Option<Option<string>>)
    ensures id.None? <==> r.Err? || r.value.Null?
    ensures r.Ok? && r.value.Obj? && "id" in r.value.fields && r.value.fields["id"].Str? ==> id == Some(Some(r.value.fields["id"].s))
  {
    if r.Err? then None
    else match Json.Get(r.value, "id")
      case TypeError => None
      case Found(Str(s)) => Some(Some(s))
      case _ => Some(None)
  }

  /** Whether the handler must create the asset first: an external id and no internal one. */
  predicate NeedsCreate(a: SearchResult) {
    PresentText(a.externalId) && !AssetConfirmation.IsInternalId(a.id)
  }

  /**
   * What `handleAssetConfirm` hands to `onAssetSelected` AS WRITTEN (lines
   * 64-82): on the create path, the asset with the id of `selectedAsset` as it
   * was when the handler started (`captured`), not the id the POST returned.
   * `None` is a failure: nothing is forwarded.
   */
  function ForwardedAsWritten(captured: Option<SearchResult>, a: SearchResult, created: Api.Result): Option<SearchResult> {
    if !NeedsCreate(a) then Some(a)
    else if CreatedId(created).None? then None
    else Some(a.(id := if captured.Some? then captured.value.id else None))
  }

  /** What the handler evidently intends: on the create path, the asset with the id the POST returned. */
  function Forwarded(a: SearchResult, created: Api.Result): (f: Option<SearchResult>)
    ensures !NeedsCreate(a) ==> f == Some(a)
    ensures NeedsCreate(a) && CreatedId(created).None? ==> f.None?
    ensures NeedsCreate(a) && CreatedId(created).Some? ==> f == Some(a.(id := CreatedId(created).value))
  {
    if !NeedsCreate(a) then Some(a)
    else if CreatedId(created).None? then None
    else Some(a.(id := CreatedId(created).value))
  }

  /**
   * In the flow, the confirmed asset is the selected one, so as written the
   * forwarded id is the external result's own id: a new asset whose POST
   * returned an internal UUID is forwarded without it.
   */
  lemma StaleIdForwarded(a: SearchResult, newId: string)
    requires a.id.None? && a.externalId == Some("bitcoin")
    requires AssetConfirmation.UuidShape(newId)
    ensures ForwardedAsWritten(Some(a), a, Api.Ok(Json.Obj(map["id" := Json.Str(newId)]))) == Some(a)
    ensures Forwarded(a, Api.Ok(Json.Obj(map["id" := Json.Str(newId)]))) == Some(a.(id := Some(newId)))
    ensures !AssetConfirmation.IsExistingAsset(a)
    ensures AssetConfirmation.IsExistingAsset(a.(id := Some(newId)))
  {
    var r := Api.Ok(Json.Obj(map["id" := Json.Str(newId)]));
    assert Json.Get(r.value, "id") == Json.Found(Json.Str(newId));
    assert newId != "";
  }

  /**
   * The corrected handler forwards an asset that the confirmation step
   * recognises as existing whenever the POST returned a UUID-shaped id, and
   * changes nothing but the id.
   */
  lemma ForwardedIsExisting(a: SearchResult, created: Api.Result)
    requires NeedsCreate(a) && CreatedId(created).Some? && CreatedId(created).value.Some?
    requires AssetConfirmation.UuidShape(CreatedId(created).value.value)
    ensures Forwarded(a, created).Some?
    ensures AssetConfirmation.IsExistingAsset(Forwarded(a, created).value)
    ensures Forwarded(a, created).value.(id := a.id) == a
  {
    assert |CreatedId(created).value.value| == 36;
  }

  // ---- The component state (lines 52-94) ----

  class DiscoveryFlow {
    var step: Step
    var selected: Option<SearchResult>
    var isProcessing: bool

    /** The confirmation step always has a selection, and the search step never has one. */
    predicate Valid()
      reads this
    {
      step == ConfirmationStep <==> selected.Some?
    }

    constructor ()
      ensures step == SearchStep && selected.None? && !isProcessing
      ensures Valid()
    {
      step := SearchStep;
      selected := None;
      isProcessing := false;
    }

    /** `handleAssetSelect`. */
    method Select(a: SearchResult)
      modifies this
      ensures selected == Some(a) && step == ConfirmationStep
      ensures isProcessing == old(isProcessing)
      ensures Valid()
    {
      selected := Some(a);
      step := ConfirmationStep;
    }

    /** `handleBackToSearch`. */
    method BackToSearch()
      modifies this
      ensures step == SearchStep && selected.None?
      ensures isProcessing == old(isProcessing)
      ensures Valid()
    {
      step := SearchStep;
      selected := None;
    }

    /**
     * `handleAssetConfirm`, with the id fix, as the confirmation view calls
     * it: raise `isProcessing`; when the asset needs creating, POST it and, on
     * success, store the asset with its new id as the selection; forward the
     * result (nothing on a failure); lower the flag. The code as written
     * forwards the same asset with the id of the selection the handler
     * started from instead.
     */
    method Confirm(client: Api.ApiClient, a: SearchResult, outcome: Api.FetchOutcome)
      returns (sent: Option<Api.Sent>, forwarded: Option<SearchResult>)
      requires Valid() && step == ConfirmationStep
      modifies this
      ensures forwarded == Forwarded(a, Api.Settle(outcome))
      ensures !NeedsCreate(a) ==> forwarded == ForwardedAsWritten(old(selected), a, Api.Settle(outcome))
      ensures NeedsCreate(a) ==>
        ForwardedAsWritten(old(selected), a, Api.Settle(outcome))
          == (if forwarded.Some? then Some(forwarded.value.(id := old(selected).value.id)) else None)
      ensures sent.Some? <==> NeedsCreate(a)
      ensures sent.Some? ==> sent.value.url == client.baseUrl + Api.Assets && sent.value.body == Some(ExternalAssetJson(a))
      ensures sent.Some? ==> sent.value.verb == Api.Method.Post && sent.value.headers == [Api.JsonContentType]
      ensures !isProcessing && step == old(step)
      ensures NeedsCreate(a) && forwarded.Some? ==> selected == forwarded
      ensures !(NeedsCreate(a) && forwarded.Some?) ==> selected == old(selected)
      ensures Valid()
    {
      isProcessing := true;
      if NeedsCreate(a) {
        var s, r := client.Post(Api.Assets, Some(ExternalAssetJson(a)), outcome);
        sent := Some(s);
        var id := CreatedId(r);
        if id.Some? {
          var updated := a.(id := id.value);
          selected := Some(updated);
          forwarded := Some(updated);
        } else {
          forwarded := None;
        }
      } else {
        sent := None;
        forwarded := Some(a);
      }
      isProcessing := false;
    }
  }
}
