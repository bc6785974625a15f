/**
 * The new-asset page (src/app/assets/new/page.tsx): its validation schema,
 * the payload `onSubmit` builds from accepted values, and the `error` and
 * `isSubmitting` state the submission updates.
 */
module NewAssetPage {
  import opened Wrappers
  import opened Types
  import opened Text
  import Json
  import Api

  /** What the form holds; the two select boxes start out unset. */
  datatype FormValues = FormValues(
    ticker: string,
    name: string,
    assetType: Option<string>,
    classification: Option<string>,
    currency: string,
    notes: Option<string>)

  /** `defaultValues` (lines 109-116). */
  const Defaults := FormValues("", "", None, None, "USD", Some(""))

  // ---- The schema (lines 43-72) ----

  const TickerRequired := "El ticker es requerido"
  const TickerTooLong := "El ticker no puede tener más de 20 caracteres"
  const TickerCharset := "El ticker solo puede contener letras mayúsculas, números, puntos y guiones"
  const NameRequired := "El nombre es requerido"
  const NameTooLong := "El nombre no puede tener más de 255 caracteres"
  const CurrencyLength := "La moneda debe tener exactamente 3 caracteres"
  const CurrencyFormat := "La moneda debe estar en formato ISO 4217 (ej: USD, EUR)"

  /** One character of `[A-Z0-9.-]`. */
  predicate TickerChar(c: char) {
    IsAsciiUpper(c) || IsDigit(c) || c == '.' || c == '-'
  }

  /** An accepted ticker: 1 to 20 characters, each an upper-case letter, a digit, a dot or a hyphen. */
  predicate TickerValid(s: string) {
    1 <= Utf16Length(s) <= 20 && forall i :: 0 <= i < |s| ==> TickerChar(s[i])
  }

  /** An accepted name: 1 to 255 UTF-16 code units, as zod's `min` and `max` count them. */
  predicate NameValid(s: string) {
    1 <= Utf16Length(s) <= 255
  }

  /** An accepted currency: three upper-case ASCII letters, the alphabetic-code format of ISO 4217. */
  predicate CurrencyValid(s: string) {
    Utf16Length(s) == 3 && forall i :: 0 <= i < |s| ==> IsAsciiUpper(s[i])
  }

  /** `/^[A-Z0-9.-]+$/`: one or more ticker characters. */
  predicate TickerPattern(s: string) {
    |s| >= 1 && forall i :: 0 <= i < |s| ==> TickerChar(s[i])
  }

  /** `/^[A-Z]{3}$/`. */
  predicate CurrencyPattern(s: string) {
    |s| == 3 && forall i :: 0 <= i < |s| ==> IsAsciiUpper(s[i])
  }

  /** The messages the ticker field collects, in the order of its checks. */
  function TickerIssues(s: string): (issues: seq<string>)
    ensures s == "" ==> issues == [TickerRequired, TickerCharset]
  {
    (if Utf16Length(s) < 1 then [TickerRequired] else [])
    + (if Utf16Length(s) > 20 then [TickerTooLong] else [])
    + (if !TickerPattern(s) then [TickerCharset] else [])
  }

  function NameIssues(s: string): seq<string> {
    (if Utf16Length(s) < 1 then [NameRequired] else []) + (if Utf16Length(s) > 255 then [NameTooLong] else [])
  }

  function CurrencyIssues(s: string): seq<string> {
    (if Utf16Length(s) != 3 then [CurrencyLength] else []) + (if !CurrencyPattern(s) then [CurrencyFormat] else [])
  }

  /** A field passes its schema exactly when it collects no message. */
  lemma IssuesEmptyIffValid(ticker: string, name: string, currency: string)
    ensures TickerIssues(ticker) == [] <==> TickerValid(ticker)
    ensures NameIssues(name) == [] <==> NameValid(name)
    ensures CurrencyIssues(currency) == [] <==> CurrencyValid(currency)
  {
    if !TickerValid(ticker) {
      assert |TickerIssues(ticker)| > 0;
    }
    if !NameValid(name) {
      assert |NameIssues(name)| > 0;
    }
    if !CurrencyValid(currency) {
      assert |CurrencyIssues(currency)| > 0;
    }
  }

  /** The limits count UTF-16 code units: 128 characters beyond U+FFFF are too long a name, 127 are not. */
  lemma NameCountsCodeUnits()
    ensures !NameValid(seq(128, i => '\U{1F600}'))
    ensures NameValid(seq(127, i => '\U{1F600}'))
  {
    var long: string := seq(128, i => '\U{1F600}');
    var short: string := seq(127, i => '\U{1F600}');
    assert forall i :: 0 <= i < |long| ==> long[i] as int >= 0x10000;
    assert forall i :: 0 <= i < |short| ==> short[i] as int >= 0x10000;
  }

  /** The whole schema: the five checked fields; `notes` is free. */
  predicate Accepts(v: FormValues) {
    TickerValid(v.ticker) && NameValid(v.name)
    && v.assetType.Some? && ParseAssetType(v.assetType.value).Some?
    && v.classification.Some? && ParseClassification(v.classification.value).Some?
    && CurrencyValid(v.currency)
  }

  /** The defaults are not submittable: the ticker and name are empty and no type is picked; the currency is valid. */
  lemma DefaultsRejected()
    ensures !Accepts(Defaults)
    ensures CurrencyValid(Defaults.currency)
  {
  }

  /** A lower-case letter never passes the ticker or currency check. */
  lemma LowerCaseRejected(s: string, i: int)
    requires 0 <= i < |s| && IsAsciiLower(s[i])
    ensures !TickerValid(s) && !CurrencyValid(s)
  {
    assert !TickerChar(s[i]) && !IsAsciiUpper(s[i]);
  }

  // ---- The payload (lines 124-131) ----

  /** An accepted ticker or currency has no lower-case letter, so upper-casing keeps it. */
  lemma UpperKeepsAccepted(v: FormValues)
    requires Accepts(v)
    ensures Upper(v.ticker) == v.ticker && Upper(v.currency) == v.currency
  {
    UpperIdentity(v.ticker);
    UpperIdentity(v.currency);
  }

  /** `values.notes || undefined`. */
  function NotesOrAbsent(notes: Option<string>): (r: Option<string>)
    ensures r.Some? <==> PresentText(notes)
    ensures r.Some? ==> r == notes
  {
    if PresentText(notes) then notes else None
  }

  /**
   * `assetData`: the accepted values with the ticker and currency upper-cased
   * (which changes nothing), the picked literals, and notes only when non-empty.
   */
  function Payload(v: FormValues): (c: AssetCreate)
    requires Accepts(v)
    ensures c.ticker == v.ticker && c.name == v.name && c.currency == v.currency
    ensures Some(AssetTypeName(c.assetType)) == v.assetType
    ensures Some(ClassificationName(c.classification)) == v.classification
    ensures c.notes.Some? <==> PresentText(v.notes)
  {
    UpperKeepsAccepted(v);
    AssetTypeRoundTrip(ParseAssetType(v.assetType.value).value, v.assetType.value);
    ClassificationRoundTrip(ParseClassification(v.classification.value).value, v.classification.value);
    AssetCreate(
      Upper(v.ticker),
      v.name,
      ParseAssetType(v.assetType.value).value,
      ParseClassification(v.classification.value).value,
      Upper(v.currency),
      NotesOrAbsent(v.notes))
  }

  /** The JSON object `JSON.stringify` writes for an `AssetCreate`: absent notes are left out. */
  function AssetCreateJson(c: AssetCreate): (j: Json.Value)
    ensures j.Obj? && Json.Truthy(j)
    ensures "notes" in j.fields <==> c.notes.Some?
    ensures Json.Get(j, "ticker") == Json.Found(Json.Str(c.ticker))
    ensures Json.Get(j, "name") == Json.Found(Json.Str(c.name))
    ensures Json.Get(j, "asset_type") == Json.Found(Json.Str(AssetTypeName(c.assetType)))
    ensures Json.Get(j, "classification") == Json.Found(Json.Str(ClassificationName(c.classification)))
    ensures Json.Get(j, "currency") == Json.Found(Json.Str(c.currency))
    ensures c.notes.Some? ==> Json.Get(j, "notes") == Json.Found(Json.Str(c.notes.value))
    ensures j.fields.Keys <= {"ticker", "name", "asset_type", "classification", "currency", "notes"}
  {
    var fields := map[
      "ticker" := Json.Str(c.ticker),
      "name" := Json.Str(c.name),
      "asset_type" := Json.Str(AssetTypeName(c.assetType)),
      "classification" := Json.Str(ClassificationName(c.classification)),
      "currency" := Json.Str(c.currency)];
    Json.Obj(if c.notes.Some? then fields["notes" := Json.Str(c.notes.value)] else fields)
  }

  // ---- The error message (lines 139-142) ----

  /** `err.data?.detail`: `undefined` when the error carries no data. */
  function Detail(e: Api.ApiError): (a: Json.Access)
    ensures !a.TypeError?
  {
    if e.data.None? then Json.Undefined else Json.Get(e.data.value, "detail").OrUndefined()
  }

  /** `err.data?.detail || err.message || fallback`. */
  function ErrorMessage(e: Api.ApiError, fallback: string): (m: Json.Value)
    ensures fallback != "" ==> Json.Truthy(m)
    ensures Detail(e).Found? && Json.Truthy(Detail(e).value) ==> m == Detail(e).value
    ensures !(Detail(e).Found? && Json.Truthy(Detail(e).value)) ==>
      m == Json.Str(if e.message != "" then e.message else fallback)
  {
    var d := Detail(e);
    if d.Found? && Json.Truthy(d.value) then d.value
    else if e.message != "" then Json.Str(e.message)
    else Json.Str(fallback)
  }

  const CreateFailed := "Error al crear el activo"

  /** A failed request shows the network message; a refusal with a `detail` shows that detail. */
  lemma ErrorMessageOfSettled(status: int, detail: string, fallback: string)
    requires !Api.IsOk(status) && detail != ""
    ensures ErrorMessage(Api.Settle(Api.NetworkFailure).error, fallback) == Json.Str(Api.NetworkErrorMessage)
    ensures ErrorMessage(Api.Settle(Api.Response(status, Api.Parsed(Json.Obj(map["detail" := Json.Str(detail)])))).error, fallback)
      == Json.Str(detail)
  {
    var body := Api.Parsed(Json.Obj(map["detail" := Json.Str(detail)]));
    var e := Api.Settle(Api.Response(status, body)).error;
    assert e == Api.NonOkError(status, body);
    assert e.data == Some(Json.Obj(map["detail" := Json.Str(detail)]));
    assert Json.Get(e.data.value, "detail") == Json.Found(Json.Str(detail));
  }

  // ---- The submission (lines 119-147) ----

  class NewAssetForm {
    var error: Option<Json.Value>
    var isSubmitting: bool

    constructor ()
      ensures error.None? && !isSubmitting
    {
      error := None;
      isSubmitting := false;
    }

    /**
     * `onSubmit` for values the schema accepted: clear the error, flag the
     * submission, POST the payload, then either go to `/assets` or show the
     * error message; the flag is cleared either way.
     */
    method Submit(client: Api.ApiClient, v: FormValues, outcome: Api.FetchOutcome)
      returns (sent: Api.Sent, navigate: Option<string>)
      requires Accepts(v)
      modifies this
      ensures sent.url == client.baseUrl + Api.Assets && sent.verb == Api.Method.Post
      ensures sent.headers == [Api.JsonContentType]
      ensures sent.body == Some(AssetCreateJson(Payload(v)))
      ensures !isSubmitting
      ensures Api.Settle(outcome).Ok? ==> error.None? && navigate == Some("/assets")
      ensures Api.Settle(outcome).Err? ==>
        navigate.None? && error == Some(ErrorMessage(Api.Settle(outcome).error, CreateFailed))
      ensures !Api.NullErrorBody(outcome) && Api.SettleAsWritten(outcome).Err? ==>
        error == Some(ErrorMessage(Api.SettleAsWritten(outcome).error, CreateFailed))
    {
      error := None;
      isSubmitting := true;
      var r;
      sent, r := client.Post(Api.Assets, Some(AssetCreateJson(Payload(v))), outcome);
      match r {
        case Ok(_) =>
          navigate := Some("/assets");
        case Err(e) =>
          error := Some(ErrorMessage(e, CreateFailed));
          navigate := None;
      }
      isSubmitting := false;
    }
  }
}
