/**
 * The HTTP client of src/lib/api.ts. `fetch` is not called: each request
 * receives the outcome the network would deliver (`FetchOutcome`) and gives
 * back the request it sent and how the returned promise settles: with a
 * JSON value, or rejected with an `APIError`.
 *
 * The client sends no `Authorization` header, keeps no token and never
 * retries; every request carries `Content-Type: application/json`.
 */
module Api {
  import opened Wrappers
  import opened Text
  import Json
  import FormUrlEncoded

  const DefaultBaseUrl := "http://localhost:8000"

  /** `process.env.NEXT_PUBLIC_API_URL || 'http://localhost:8000'`. */
  function BaseUrl(env: Option<string>): (r: string)
    ensures r != ""
    ensures env.Some? && env.value != "" ==> r == env.value
    ensures env.None? || env.value == "" ==> r == "http://localhost:8000"
  {
    if env.Some? && env.value != "" then env.value else DefaultBaseUrl
  }

  datatype Method = Get | Post | Put | Delete

  /** The one header every request carries. */
  const JsonContentType: (string, string) := ("Content-Type", "application/json")

  /** The options the verb helpers pass to `request`: a method and, for POST/PUT, maybe a body. */
  datatype RequestInit = RequestInit(verb: Method, body: Option<Json.Value>)

  /** What `fetch` is called with; `body` is the value that was passed through `JSON.stringify`. */
  datatype Sent = Sent(url: string, verb: Method, headers: seq<(string, string)>, body: Option<Json.Value>)

  /** What `response.json()` makes of a body. */
  datatype Body = Parsed(value: Json.Value) | Unparseable

  /** What the network delivers: a rejected `fetch`, or a response with its status and body. */
  datatype FetchOutcome = NetworkFailure | Response(status: int, body: Body)

  datatype ApiError = ApiError(status: int, message: string, data: Option<Json.Value>)

  /** How the promise returned by `request` settles. */
  datatype Result = Ok(value: Json.Value) | Err(error: ApiError)

  const NetworkErrorMessage := "Network error or server unavailable"
  const UnknownErrorMessage := "Unknown error occurred"

  /** The error every failure that is not already an `APIError` becomes. */
  const NetworkError := ApiError(0, NetworkErrorMessage, None)

  /** `response.ok`. */
  predicate IsOk(status: int) {
    200 <= status <= 299
  }

  /** What was thrown inside the `try` of `request`. */
  datatype Thrown = Raised(error: ApiError) | OtherFailure

  /** `errorData` after lines 39-44: the parsed body, or a stand-in when it is not JSON. */
  function ErrorData(body: Body): Json.Value {
    match body
    case Parsed(v) => v
    case Unparseable => Json.Obj(map["message" := Json.Str(UnknownErrorMessage)])
  }

  /** The body's `message` member when it is a string, else the empty string. */
  function MessageText(body: Body): string {
    var m := Json.Get(ErrorData(body), "message");
    if m.Found? && m.value.Str? then m.value.s else ""
  }

  function HttpStatusMessage(status: int): string {
    "HTTP " + IntToString(status)
  }

  /**
   * Lines 46-50 AS WRITTEN: `errorData.message` is read without a guard, so a
   * body that parses to `null` throws a TypeError instead of an `APIError`.
   */
  function NonOkThrowAsWritten(status: int, body: Body): Thrown {
    var data := ErrorData(body);
    match Json.Get(data, "message")
    case TypeError => OtherFailure
    case Undefined => Raised(ApiError(status, HttpStatusMessage(status), Some(data)))
    case Found(m) =>
      Raised(ApiError(status, if Json.Truthy(m) then Json.ToJsString(m) else HttpStatusMessage(status), Some(data)))
  }

  /**
   * The `APIError` a non-2xx response raises, as lines 38-51 evidently intend:
   * the response status, `body.message` when it is truthy, else `HTTP <status>`,
   * and the parsed body (or its stand-in) as data. A `null` body keeps the
   * status (see `NonOkThrowAsWritten`).
   */
  function NonOkError(status: int, body: Body): (e: ApiError)
    ensures e.status == status
    ensures e.data == Some(ErrorData(body))
    ensures body.Unparseable? ==> e.message == UnknownErrorMessage && e.data == Some(Json.Obj(map["message" := Json.Str(UnknownErrorMessage)]))
    ensures MessageText(body) != "" ==> e.message == MessageText(body)
    ensures body.Parsed? && !Json.Get(body.value, "message").Found? ==> e.message == "HTTP " + IntToString(status)
    ensures var m := Json.Get(ErrorData(body), "message");
      !(m.Found? && Json.Truthy(m.value)) ==> e.message == "HTTP " + IntToString(status)
    ensures var m := Json.Get(ErrorData(body), "message");
      m.Found? && Json.Truthy(m.value) ==> e.message == Json.ToJsString(m.value)
  {
    var data := ErrorData(body);
    var m := Json.Get(data, "message");
    ApiError(status, if m.Found? && Json.Truthy(m.value) then Json.ToJsString(m.value) else HttpStatusMessage(status), Some(data))
  }

  /** Apart from a `null` body, the code as written raises exactly `NonOkError`. */
  lemma NonOkAsWrittenAgrees(status: int, body: Body)
    requires body != Parsed(Json.Null)
    ensures NonOkThrowAsWritten(status, body) == Raised(NonOkError(status, body))
  {
  }

  /** A 500 response whose body is `null` is reported as a failure that is not an `APIError`, so it surfaces as status 0. */
  lemma NullErrorBodyLosesStatus()
    ensures NonOkThrowAsWritten(500, Parsed(Json.Null)) == OtherFailure
    ensures NonOkError(500, Parsed(Json.Null)).status == 500
  {
  }

  /** How `request` settles for a given network outcome. */
  function Settle(outcome: FetchOutcome): Result {
    match outcome
    case NetworkFailure => Err(NetworkError)
    case Response(status, body) =>
      if !IsOk(status) then Err(NonOkError(status, body))
      else if status == 204 then Ok(Json.EmptyObject)
      else if body.Parsed? then Ok(body.value)
      else Err(NetworkError)
  }

  /** A non-2xx response whose body parses to `null`: the one input on which the code and `Settle` part. */
  predicate NullErrorBody(outcome: FetchOutcome) {
    outcome.Response? && !IsOk(outcome.status) && outcome.body == Parsed(Json.Null)
  }

  /**
   * How `request` settles AS WRITTEN: as `Settle`, except that the
   * `TypeError` of `NonOkThrowAsWritten` is caught at lines 59-65 and
   * becomes the network error.
   */
  function SettleAsWritten(outcome: FetchOutcome): Result {
    match outcome
    case NetworkFailure => Err(NetworkError)
    case Response(status, body) =>
      if !IsOk(status) then
        match NonOkThrowAsWritten(status, body)
        case Raised(e) => Err(e)
        case OtherFailure => Err(NetworkError)
      else if status == 204 then Ok(Json.EmptyObject)
      else if body.Parsed? then Ok(body.value)
      else Err(NetworkError)
  }

  /** The code and `Settle` agree on every outcome but a non-2xx `null` body, which the code reports with status 0. */
  lemma SettleAsWrittenAgrees(outcome: FetchOutcome)
    ensures !NullErrorBody(outcome) ==> SettleAsWritten(outcome) == Settle(outcome)
    ensures NullErrorBody(outcome) ==> SettleAsWritten(outcome) == Err(NetworkError)
    ensures NullErrorBody(outcome) ==> Settle(outcome) == Err(NonOkError(outcome.status, outcome.body))
  {
    if outcome.Response? && !IsOk(outcome.status) && outcome.body != Parsed(Json.Null) {
      NonOkAsWrittenAgrees(outcome.status, outcome.body);
    }
  }

  /**
   * Status 0 is the network error and nothing else: as written it is raised
   * for a rejected fetch, an unreadable success body, or a non-2xx body that
   * parses to `null`; in `Settle` the last case keeps its status.
   */
  lemma SettleZeroStatus(outcome: FetchOutcome)
    requires SettleAsWritten(outcome).Err? && SettleAsWritten(outcome).error.status == 0
    requires outcome.Response? ==> outcome.status != 0
    ensures SettleAsWritten(outcome).error == NetworkError
    ensures outcome.NetworkFailure? || (IsOk(outcome.status) && outcome.status != 204 && outcome.body.Unparseable?)
      || NullErrorBody(outcome)
    ensures !NullErrorBody(outcome) ==> Settle(outcome) == SettleAsWritten(outcome)
  {
    SettleAsWrittenAgrees(outcome);
  }

  /**
   * In `Settle`, every non-2xx response is an `APIError` that carries the
   * response status and its body; as written the same holds for every body
   * but `null`.
   */
  lemma SettleNonOk(status: int, body: Body)
    requires !IsOk(status)
    ensures Settle(Response(status, body)).Err?
    ensures Settle(Response(status, body)).error.status == status
    ensures Settle(Response(status, body)).error.data == Some(ErrorData(body))
    ensures body != Parsed(Json.Null) ==> SettleAsWritten(Response(status, body)) == Settle(Response(status, body))
  {
    SettleAsWrittenAgrees(Response(status, body));
  }

  /** A 204 resolves to `{}` whatever its body, so the body is never read. */
  lemma SettleNoContent(b1: Body, b2: Body)
    ensures Settle(Response(204, b1)) == Settle(Response(204, b2)) == Ok(Json.EmptyObject)
  {
  }

  class ApiClient {
    const baseUrl: string

    constructor (baseUrl: string)
      ensures this.baseUrl == baseUrl
    {
      this.baseUrl := baseUrl;
    }

    /**
     * `request` (lines 21-67): builds the URL and the options, "sends" them,
     * and converts the outcome step by step, as its `try`/`catch` does, with
     * `message` read only from a body that is not `null` (`NonOkError`); on
     * every other outcome it settles as the code as written does.
     */
    method Request(endpoint: string, init: RequestInit, outcome: FetchOutcome) returns (sent: Sent, r: Result)
      ensures sent == Sent(baseUrl + endpoint, init.verb, [JsonContentType], init.body)
      ensures r == Settle(outcome)
      ensures !NullErrorBody(outcome) ==> r == SettleAsWritten(outcome)
      ensures outcome.Response? && !IsOk(outcome.status) ==> r == Err(NonOkError(outcome.status, outcome.body))
    {
      SettleAsWrittenAgrees(outcome);
      var url := baseUrl + endpoint;
      sent := Sent(url, init.verb, [JsonContentType], init.body);

      var thrown: Option<Thrown> := None;
      var value := Json.Null;
      match outcome {
        case NetworkFailure =>
          thrown := Some(OtherFailure);
        case Response(status, body) =>
          if !IsOk(status) {
            thrown := Some(Raised(NonOkError(status, body)));
          } else if status == 204 {
            value := Json.EmptyObject;
          } else {
            match body {
              case Parsed(v) => value := v;
              case Unparseable => thrown := Some(OtherFailure);
            }
          }
      }

      if thrown.Some? {
        match thrown.value {
          case Raised(e) => r := Err(e);
          case OtherFailure => r := Err(NetworkError);
        }
      } else {
        r := Ok(value);
      }
    }

    /** `get`: the parameters, when given, are appended as `?` and their form-urlencoded serialization. */
    method Get(endpoint: string, params: Option<seq<FormUrlEncoded.Pair>>, outcome: FetchOutcome) returns (sent: Sent, r: Result)
      ensures sent.url == baseUrl + endpoint + (if params.Some? then "?" + FormUrlEncoded.Serialize(params.value) else "")
      ensures sent.verb == Method.Get && sent.headers == [JsonContentType] && sent.body == None
      ensures r == Settle(outcome)
      ensures !NullErrorBody(outcome) ==> r == SettleAsWritten(outcome)
    {
      var query := if params.Some? then "?" + FormUrlEncoded.Serialize(params.value) else "";
      sent, r := Request(endpoint + query, RequestInit(Method.Get, None), outcome);
      assert baseUrl + (endpoint + query) == baseUrl + endpoint + query;
    }

    /** `post`: the data is sent as the JSON body only when it is truthy. */
    method Post(endpoint: string, data: Option<Json.Value>, outcome: FetchOutcome) returns (sent: Sent, r: Result)
      ensures sent.url == baseUrl + endpoint
      ensures sent.verb == Method.Post && sent.headers == [JsonContentType]
      ensures sent.body.Some? <==> data.Some? && Json.Truthy(data.value)
      ensures sent.body.Some? ==> sent.body == data
      ensures r == Settle(outcome)
      ensures !NullErrorBody(outcome) ==> r == SettleAsWritten(outcome)
    {
      sent, r := Request(endpoint, RequestInit(Method.Post, BodyOf(data)), outcome);
    }

    /** `put`: as `post`, with method PUT. */
    method Put(endpoint: string, data: Option<Json.Value>, outcome: FetchOutcome) returns (sent: Sent, r: Result)
      ensures sent.url == baseUrl + endpoint
      ensures sent.verb == Method.Put && sent.headers == [JsonContentType]
      ensures sent.body.Some? <==> data.Some? && Json.Truthy(data.value)
      ensures sent.body.Some? ==> sent.body == data
      ensures r == Settle(outcome)
      ensures !NullErrorBody(outcome) ==> r == SettleAsWritten(outcome)
    {
      sent, r := Request(endpoint, RequestInit(Method.Put, BodyOf(data)), outcome);
    }

    /** `delete`: no body. */
    method Delete(endpoint: string, outcome: FetchOutcome) returns (sent: Sent, r: Result)
      ensures sent == Sent(baseUrl + endpoint, Method.Delete, [JsonContentType], None)
      ensures r == Settle(outcome)
      ensures !NullErrorBody(outcome) ==> r == SettleAsWritten(outcome)
    {
      sent, r := Request(endpoint, RequestInit(Method.Delete, None), outcome);
    }
  }

  /** `data ? JSON.stringify(data) : undefined`. */
  function BodyOf(data: Option<Json.Value>): Option<Json.Value> {
    if data.Some? && Json.Truthy(data.value) then data else None
  }

  /** The query string of a GET gives back its parameters (for ASCII names and values). */
  lemma GetQueryRecoversParams(endpoint: string, params: seq<FormUrlEncoded.Pair>)
    requires forall i :: 0 <= i < |params| ==> FormUrlEncoded.IsAscii(params[i].0) && FormUrlEncoded.IsAscii(params[i].1)
    ensures var url := endpoint + "?" + FormUrlEncoded.Serialize(params);
      FormUrlEncoded.Parse(url[|endpoint| + 1..]) == params
  {
    var url := endpoint + "?" + FormUrlEncoded.Serialize(params);
    assert url[|endpoint| + 1..] == FormUrlEncoded.Serialize(params);
    FormUrlEncoded.ParseSerialize(params);
  }

  // ---- API_ENDPOINTS (lines 107-133) ----

  const Health := "/health"
  const HealthDetailed := "/health/detailed"
  const PortfolioSummary := "/portfolio/summary"
  const PortfolioHoldings := "/portfolio/holdings"
  const PortfolioAllocation := "/portfolio/allocation"
  const Assets := "/assets"
  const Transactions := "/transactions"
  const SyncPrices := "/api/v1/sync/prices"
  const LatestPrices := "/api/v1/prices/latest"
  const Users := "/api/v1/users"

  /** `ASSET_BY_ID(id)`: `/assets/` and the id, with no escaping. */
  function AssetById(id: string): string {
    Assets + "/" + id
  }

  /** `TRANSACTION_BY_ID(id)`. */
  function TransactionById(id: string): string {
    Transactions + "/" + id
  }

  function AssetPrices(assetId: string): string {
    "/api/v1/prices/" + assetId
  }

  function UserById(id: string): string {
    Users + "/" + id
  }

  /** The id sits verbatim after the collection path, so distinct ids give distinct paths. */
  lemma ByIdPaths(id: string, other: string)
    ensures StartsWith(AssetById(id), "/assets/") && AssetById(id)[8..] == id
    ensures StartsWith(TransactionById(id), "/transactions/") && TransactionById(id)[14..] == id
    ensures AssetById(id) == AssetById(other) ==> id == other
    ensures TransactionById(id) == TransactionById(other) ==> id == other
    ensures AssetById(id) != TransactionById(other)
  {
    assert AssetById(id)[8..] == id;
    assert TransactionById(id)[14..] == id;
    assert AssetById(id)[1] != TransactionById(other)[1];
    if AssetById(id) == AssetById(other) {
      assert AssetById(other)[8..] == other;
    }
    if TransactionById(id) == TransactionById(other) {
      assert TransactionById(other)[14..] == other;
    }
  }
}
