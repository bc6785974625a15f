/**
 * The new-transaction page (src/app/transactions/new/page.tsx): the total
 * the form recomputes from quantity, price and commission, the schema
 * `onSubmit` checks by hand, the payload it builds, and the error message
 * it shows.
 */
module NewTransactionPage {
  import opened Wrappers
  import opened Types
  import Json
  import Api
  import Text
  import NewAssetPage

  /** `Number(x)` of a form field: not a number, or a (finite) real. */
  datatype Num = NaN | Finite(r: real)

  /** `Number(x) || 0`: `NaN` and `0` become `0`. */
  function OrZero(n: Num): (r: real)
    ensures n.Finite? ==> r == n.r
    ensures n.NaN? ==> r == 0.0
  {
    if n.Finite? && n.r != 0.0 then n.r else 0.0
  }

  /**
   * What the form holds (after `Number(...)` on the numeric fields). The type
   * is picked from a select box offering only `BUY` and `SELL`.
   */
  datatype FormValues = FormValues(
    assetId: string,
    date: string,
    txType: TransactionType,
    quantity: Num,
    pricePerUnit: Num,
    totalAmount: Num,
    currency: string,
    commission: Num,
    notes: Option<string>)

  /** `defaultValues` (lines 102-112); today's date is an input. */
  function Defaults(today: string): FormValues {
    FormValues("", today, Buy, Finite(0.0), Finite(0.0), Finite(0.0), "USD", Finite(0.0), Some(""))
  }

  // ---- The recomputed total (lines 123-132) ----

  /** The effect's guard: quantity and price are numbers and both positive. */
  predicate CanRecompute(quantity: Num, price: Num) {
    quantity.Finite? && price.Finite? && quantity.r > 0.0 && price.r > 0.0
  }

  /**
   * The total after the effect runs: `quantity * price + (commission || 0)`
   * when the guard holds, otherwise the current total, untouched.
   */
  function RecomputedTotal(quantity: Num, price: Num, commission: Num, current: Num): (t: Num)
    ensures !CanRecompute(quantity, price) ==> t == current
    ensures CanRecompute(quantity, price) ==> t == Finite(quantity.r * price.r + OrZero(commission))
  {
    if CanRecompute(quantity, price) then Finite(quantity.r * price.r + OrZero(commission)) else current
  }

  /** With a commission that is not negative, a recomputed total is positive. */
  lemma RecomputedTotalPositive(quantity: Num, price: Num, commission: Num, current: Num)
    requires CanRecompute(quantity, price)
    requires commission.NaN? || commission.r >= 0.0
    ensures RecomputedTotal(quantity, price, commission, current).Finite?
    ensures RecomputedTotal(quantity, price, commission, current).r > 0.0
  {
    var q := quantity.r;
    var p := price.r;
    assert q * p > 0.0;
  }

  /** The form's values after the effect. */
  function AfterEffect(v: FormValues): FormValues {
    v.(totalAmount := RecomputedTotal(v.quantity, v.pricePerUnit, v.commission, v.totalAmount))
  }

  // ---- The schema (lines 43-71) ----

  /** A schema issue: the field it is about and its message. */
  datatype Issue = Issue(path: string, message: string)

  /**
   * The issues of a number field with a positive bound and a minimum: not a
   * number stops there; otherwise each failed check adds its message.
   */
  function NumberIssues(path: string, n: Num, invalid: string, positive: string, minimum: real, tooSmall: string): (issues: seq<Issue>)
    requires minimum > 0.0
    ensures issues == [] <==> n.Finite? && n.r >= minimum
    ensures n.NaN? ==> issues == [Issue(path, invalid)]
    ensures forall i :: 0 <= i < |issues| ==> issues[i].path == path
  {
    if n.NaN? then [Issue(path, invalid)]
    else (if n.r <= 0.0 then [Issue(path, positive)] else []) + (if n.r < minimum then [Issue(path, tooSmall)] else [])
  }

  function TextIssues(path: string, s: string, required: string): seq<Issue> {
    if |s| < 1 then [Issue(path, required)] else []
  }

  function CurrencyIssues(s: string): seq<Issue> {
    var msgs := NewAssetPage.CurrencyIssues(s);
    seq(|msgs|, i requires 0 <= i < |msgs| => Issue("currency", msgs[i]))
  }

  /** The commission after `Number(...) || 0` passes iff it is not negative. */
  function CommissionIssues(c: real): seq<Issue> {
    if c < 0.0 then [Issue("commission", "La comisión no puede ser negativa")] else []
  }

  /** Every issue of `transactionSchema.parse`, in schema order. */
  function Issues(v: FormValues): seq<Issue> {
    TextIssues("asset_id", v.assetId, "Selecciona un activo")
    + TextIssues("date", v.date, "La fecha es requerida")
    + NumberIssues("quantity", v.quantity, "La cantidad debe ser un número válido",
        "La cantidad debe ser mayor a 0", 0.00000001, "La cantidad mínima es 0.00000001")
    + NumberIssues("price_per_unit", v.pricePerUnit, "El precio debe ser un número válido",
        "El precio debe ser mayor a 0", 0.00000001, "El precio mínimo es 0.00000001")
    + NumberIssues("total_amount", v.totalAmount, "El total debe ser un número válido",
        "El total debe ser mayor a 0", 0.01, "El total mínimo es 0.01")
    + CurrencyIssues(v.currency)
    + CommissionIssues(OrZero(v.commission))
  }

  /** What the schema accepts, field by field. */
  predicate Accepts(v: FormValues) {
    v.assetId != "" && v.date != ""
    && v.quantity.Finite? && v.quantity.r >= 0.00000001
    && v.pricePerUnit.Finite? && v.pricePerUnit.r >= 0.00000001
    && v.totalAmount.Finite? && v.totalAmount.r >= 0.01
    && NewAssetPage.CurrencyValid(v.currency)
    && OrZero(v.commission) >= 0.0
  }

  /** The parse succeeds exactly when the form is accepted. */
  lemma IssuesEmptyIffAccepts(v: FormValues)
    ensures Issues(v) == [] <==> Accepts(v)
  {
    NewAssetPage.IssuesEmptyIffValid("", "", v.currency);
    var q := NumberIssues("quantity", v.quantity, "La cantidad debe ser un número válido",
        "La cantidad debe ser mayor a 0", 0.00000001, "La cantidad mínima es 0.00000001");
    var p := NumberIssues("price_per_unit", v.pricePerUnit, "El precio debe ser un número válido",
        "El precio debe ser mayor a 0", 0.00000001, "El precio mínimo es 0.00000001");
    var t := NumberIssues("total_amount", v.totalAmount, "El total debe ser un número válido",
        "El total debe ser mayor a 0", 0.01, "El total mínimo es 0.01");
    var parts := [TextIssues("asset_id", v.assetId, "Selecciona un activo"), TextIssues("date", v.date, "La fecha es requerida"),
      q, p, t, CurrencyIssues(v.currency), CommissionIssues(OrZero(v.commission))];
    assert Issues(v) == parts[0] + parts[1] + parts[2] + parts[3] + parts[4] + parts[5] + parts[6];
    assert |Issues(v)| == |parts[0]| + |parts[1]| + |parts[2]| + |parts[3]| + |parts[4]| + |parts[5]| + |parts[6]|;
    assert |CurrencyIssues(v.currency)| == |NewAssetPage.CurrencyIssues(v.currency)|;
  }

  /** The defaults fail first on the asset, which is still unselected. */
  lemma DefaultsFirstIssue(today: string)
    ensures Issues(Defaults(today)) != []
    ensures Issues(Defaults(today))[0] == Issue("asset_id", "Selecciona un activo")
  {
  }

  // ---- The error message (lines 162-176) ----

  const ValidationFallback := "Error de validación"
  const CreateFailed := "Error al registrar la transacción"

  /** `` `${path.join('.')}: ${message}` `` of the first issue, or the fallback when there is none. */
  function ValidationMessage(issues: seq<Issue>): (m: string)
    ensures issues != [] ==> m == issues[0].path + ": " + issues[0].message
    ensures issues == [] ==> m == ValidationFallback
  {
    if issues != [] then issues[0].path + ": " + issues[0].message else ValidationFallback
  }

  /**
   * The parse throws only when there is an issue, so the message always names
   * the first failing field and the fallback is never shown.
   */
  lemma ValidationMessageNamesField(v: FormValues)
    requires !Accepts(v)
    ensures ValidationMessage(Issues(v)) == Issues(v)[0].path + ": " + Issues(v)[0].message
    ensures ValidationMessage(Issues(v)) != ValidationFallback
  {
    IssuesEmptyIffAccepts(v);
    var m := ValidationMessage(Issues(v));
    var prefix := Issues(v)[0].path + ": ";
    assert m == prefix + Issues(v)[0].message;
    assert |prefix| >= 2 && prefix[|prefix| - 2] == ':';
  }

  // ---- The payload (lines 146-157) ----

  /** `transactionData`: the parsed values, the currency upper-cased, the commission after `|| 0`, notes only when non-empty. */
  function Payload(v: FormValues): (c: TransactionCreate)
    requires Accepts(v)
    ensures c.assetId == v.assetId && c.date == v.date && c.txType == v.txType
    ensures c.quantity == v.quantity.r && c.pricePerUnit == v.pricePerUnit.r && c.totalAmount == v.totalAmount.r
    ensures c.currency == v.currency
    ensures c.commission == Some(OrZero(v.commission)) && c.commission.value >= 0.0
    ensures c.notes.Some? <==> PresentText(v.notes)
  {
    Text.UpperIdentity(v.currency);
    TransactionCreate(v.assetId, v.date, v.txType, v.quantity.r, v.pricePerUnit.r, v.totalAmount.r,
      Text.Upper(v.currency), Some(OrZero(v.commission)), NewAssetPage.NotesOrAbsent(v.notes))
  }

  // ---- The page state ----

  class NewTransactionForm {
    var values: FormValues
    var error: Option<Json.Value>

    constructor (today: string)
      ensures values == Defaults(today) && error.None?
    {
      values := Defaults(today);
      error := None;
    }

    /** The effect on a change of quantity, price or commission: `setValue('total_amount', ...)` under the guard. */
    method RecomputeTotal()
      modifies this
      ensures values == AfterEffect(old(values))
      ensures error == old(error)
    {
      var qty := values.quantity;
      var price := values.pricePerUnit;
      var comm := OrZero(values.commission);
      if qty.Finite? && price.Finite? && qty.r > 0.0 && price.r > 0.0 {
        values := values.(totalAmount := Finite(qty.r * price.r + comm));
      }
    }

    /**
     * `onSubmit`: clear the error, parse; on an issue show the first one; else
     * hand the payload to the create mutation, whose settled result is
     * `created`, and go to `/transactions` or show its error.
     */
    method Submit(created: Api.Result) returns (payload: Option<TransactionCreate>, navigate: Option<string>)
      modifies this
      ensures values == old(values)
      ensures !Accepts(values) ==> payload.None? && navigate.None?
      ensures !Accepts(values) ==> error == Some(Json.Str(ValidationMessage(Issues(values))))
      ensures Accepts(values) ==> payload == Some(Payload(values))
      ensures Accepts(values) && created.Ok? ==> error.None? && navigate == Some("/transactions")
      ensures Accepts(values) && created.Err? ==>
        navigate.None? && error == Some(NewAssetPage.ErrorMessage(created.error, CreateFailed))
    {
      error := None;
      var issues := Issues(values);
      IssuesEmptyIffAccepts(values);
      if issues != [] {
        error := Some(Json.Str(ValidationMessage(issues)));
        return None, None;
      }
      payload := Some(Payload(values));
      match created {
        case Ok(_) =>
          navigate := Some("/transactions");
        case Err(e) =>
          error := Some(NewAssetPage.ErrorMessage(e, CreateFailed));
          navigate := None;
      }
    }
  }
}
