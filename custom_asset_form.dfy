/**
 * The custom-asset form of the discovery flow
 * (src/components/assets/CustomAssetForm.tsx): a schema looser than the
 * new-asset page's, with asset types and classifications of its own, the
 * default values taken from optional initial data, and the `isSubmitting`
 * flag around the save callback.
 */
module CustomAssetForm {
  import opened Wrappers
  import opened Types
  import opened Text
  import NewAssetPage

  /** The form's data (`AssetFormData`). */
  datatype FormData = FormData(
    ticker: string,
    name: string,
    assetType: string,
    classification: string,
    currency: string,
    notes: string)

  /** `Partial<AssetFormData>`: each field may be missing. */
  datatype InitialData = InitialData(
    ticker: Option<string>,
    name: Option<string>,
    assetType: Option<string>,
    classification: Option<string>,
    currency: Option<string>,
    notes: Option<string>)

  // ---- The schema (lines 22-44) ----

  const AssetTypes: seq<string> := ["CRYPTO", "STOCK", "ETF", "BOND", "COMMODITY", "OTHER"]
  const Classifications: seq<string> := ["GROWTH", "VALUE", "DIVIDEND", "DEFENSIVE", "CYCLICAL", "OTHER"]

  /** A ticker of 1 to 20 UTF-16 code units, whatever the characters are. */
  predicate TickerAccepted(s: string) {
    1 <= Utf16Length(s) <= 20
  }

  predicate NameAccepted(s: string) {
    1 <= Utf16Length(s) <= 255
  }

  /** Exactly three characters, with no check of case or letters. */
  predicate CurrencyAccepted(s: string) {
    Utf16Length(s) == 3
  }

  predicate Accepts(d: FormData) {
    TickerAccepted(d.ticker) && NameAccepted(d.name)
    && d.assetType in AssetTypes && d.classification in Classifications
    && CurrencyAccepted(d.currency)
  }

  /**
   * This schema is looser than the new-asset page's on the ticker and the
   * currency: whatever that one accepts, this one does, and lower case passes
   * here only.
   */
  lemma LooserThanNewAssetSchema(ticker: string, currency: string)
    ensures NewAssetPage.TickerValid(ticker) ==> TickerAccepted(ticker)
    ensures NewAssetPage.CurrencyValid(currency) ==> CurrencyAccepted(currency)
    ensures TickerAccepted("btc") && !NewAssetPage.TickerValid("btc")
    ensures CurrencyAccepted("usd") && !NewAssetPage.CurrencyValid("usd")
  {
    NewAssetPage.LowerCaseRejected("btc", 0);
    NewAssetPage.LowerCaseRejected("usd", 0);
  }

  /**
   * The option lists disagree with the application's types: `COMMODITY` is
   * offered but is no asset type, `CASH` is an asset type but is refused, and
   * no classification of the application is accepted.
   */
  lemma OptionsDifferFromTypes()
    ensures "COMMODITY" in AssetTypes && ParseAssetType("COMMODITY").None?
    ensures AssetTypeName(AssetType.Cash) !in AssetTypes
    ensures forall c: Classification :: ClassificationName(c) !in Classifications
  {
    forall c: Classification ensures ClassificationName(c) !in Classifications {
      assert IsAsciiLower(ClassificationName(c)[0]);
      assert forall k :: 0 <= k < |Classifications| ==> IsAsciiUpper(Classifications[k][0]);
    }
  }

  // ---- Defaults (lines 70-77) ----

  /** `initialData?.field || fallback`. */
  function FieldOr(field: Option<string>, fallback: string): (r: string)
    ensures PresentText(field) ==> r == field.value
    ensures !PresentText(field) ==> r == fallback
  {
    if PresentText(field) then field.value else fallback
  }

  /** `defaultValues`: missing or empty initial fields fall back to `''`, `''`, `CRYPTO`, `GROWTH`, `USD`, `''`. */
  function Defaults(initial: Option<InitialData>): (d: FormData)
    ensures initial.None? ==> d == FormData("", "", "CRYPTO", "GROWTH", "USD", "")
    ensures initial.Some? ==>
              d == FormData(FieldOr(initial.value.ticker, ""), FieldOr(initial.value.name, ""),
                            FieldOr(initial.value.assetType, "CRYPTO"), FieldOr(initial.value.classification, "GROWTH"),
                            FieldOr(initial.value.currency, "USD"), FieldOr(initial.value.notes, ""))
  {
    match initial
    case None => FormData("", "", "CRYPTO", "GROWTH", "USD", "")
    case Some(i) =>
      FormData(FieldOr(i.ticker, ""), FieldOr(i.name, ""), FieldOr(i.assetType, "CRYPTO"),
        FieldOr(i.classification, "GROWTH"), FieldOr(i.currency, "USD"), FieldOr(i.notes, ""))
  }

  /**
   * The defaults always pass the type, classification and currency checks
   * when the initial data leaves those out, so only the ticker and the name
   * decide whether they can be submitted.
   */
  lemma DefaultsAccepted(initial: Option<InitialData>)
    requires initial.Some? ==> !PresentText(initial.value.assetType) && !PresentText(initial.value.classification)
    requires initial.Some? ==> !PresentText(initial.value.currency)
    ensures Accepts(Defaults(initial)) <==> TickerAccepted(Defaults(initial).ticker) && NameAccepted(Defaults(initial).name)
    ensures initial.None? ==> !Accepts(Defaults(initial))
  {
    assert "CRYPTO" == AssetTypes[0] && "GROWTH" == Classifications[0];
  }

  // ---- Submission (lines 81-89) ----

  class CustomAssetFormView {
    var isSubmitting: bool

    constructor ()
      ensures !isSubmitting
    {
      isSubmitting := false;
    }

    /**
     * `onSubmit`: raise the flag, hand the data to `onSave`, and lower the
     * flag in `finally`; an exception from `onSave` (`saveThrows`) propagates.
     */
    method Submit(data: FormData, saveThrows: bool) returns (saved: FormData, rethrown: bool)
      requires Accepts(data)
      modifies this
      ensures saved == data
      ensures rethrown == saveThrows
      ensures !isSubmitting
    {
      isSubmitting := true;
      saved := data;
      rethrown := saveThrows;
      isSubmitting := false;
    }
  }
}
