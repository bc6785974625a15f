/**
 * The discovery page (src/app/assets/discovery/page.tsx): it shows the
 * discovery flow until an asset is selected, then the selected asset's
 * details, and goes back to discovery on request.
 */
module DiscoveryPage {
  import opened Wrappers
  import opened Types

  /** What `onAssetSelected` may hand over: a search result or custom form data. */
  datatype Selection = FromSearch(result: SearchResult) | Custom(data: CustomAssetData)

  /** What the page renders. */
  datatype PageView = Discovery | Details(selection: Selection) | Nothing

  /** The page's render choice (lines 35-174). */
  function Render(showDiscovery: bool, selected: Option<Selection>): (v: PageView)
    ensures showDiscovery ==> v == Discovery
    ensures v.Details? <==> !showDiscovery && selected.Some?
    ensures v.Details? ==> v.selection == selected.value
    ensures v == Nothing <==> !showDiscovery && selected.None?
  {
    if showDiscovery then Discovery
    else if selected.Some? then Details(selected.value)
    else Nothing
  }

  /**
   * The notice that no prices will be fetched automatically: the selection
   * has a `source` member (only search results do) equal to `'manual'`.
   */
  predicate ManualNotice(s: Selection) {
    match s
    case FromSearch(r) => r.source == "manual"
    case Custom(_) => false
  }

  /** Custom data never gets the notice; a search result gets it iff its source is `manual`. */
  lemma ManualNoticeIff(s: Selection)
    ensures ManualNotice(s) <==> s.FromSearch? && s.result.source == "manual"
    ensures s.Custom? ==> !ManualNotice(s)
  {
  }

  class AssetDiscoveryPage {
    var selected: Option<Selection>
    var showDiscovery: bool

    /** Discovery mode and a selection exclude each other, so the page never renders nothing. */
    predicate Valid()
      reads this
    {
      showDiscovery <==> selected.None?
    }

    function View(): (v: PageView)
      reads this
      ensures Valid() ==> v != Nothing
    {
      Render(showDiscovery, selected)
    }

    constructor ()
      ensures selected.None? && showDiscovery
      ensures Valid()
    {
      selected := None;
      showDiscovery := true;
    }

    /** `handleAssetSelected`. */
    method AssetSelected(s: Selection)
      modifies this
      ensures selected == Some(s) && !showDiscovery
      ensures Valid() && View() == Details(s)
    {
      selected := Some(s);
      showDiscovery := false;
    }

    /** `handleBackToDiscovery`. */
    method BackToDiscovery()
      modifies this
      ensures selected.None? && showDiscovery
      ensures Valid() && View() == Discovery
    {
      showDiscovery := true;
      selected := None;
    }
  }
}
