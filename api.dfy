/**
 * The records the API client produces and the client's pure decisions:
 * numeric and timestamp coercion, classification of an HTTP response, the
 * login-response check and the account-id list.
 */
module Api {
  import opened Wrappers
  import opened Json

  /**
   * What the client raises. `AuthenticationError` is a subclass of
   * `FerrellgasApiError` in the source; `JsonDecodeError` stands for
   * `json.JSONDecodeError`, a `ValueError` outside that family.
   */
  datatype Failure =
    | AuthenticationError(message: string)
    | ApiError(message: string)
    | JsonDecodeError

  /** `isinstance(err, FerrellgasApiError)`: the errors the coordinator translates. */
  predicate IsFerrellgasError(e: Failure)
  {
    e.AuthenticationError? || e.ApiError?
  }

  datatype Date = Date(year: int, month: int, day: int)
  datatype Clock = Clock(hour: int, minute: int, second: int, microsecond: int)

  /** A fixed UTC offset, in seconds. */
  datatype TzInfo = TzInfo(offsetSeconds: int)

  /** A Python `datetime`; `tz == None` is a naive datetime. */
  datatype DateTime = DateTime(date: Date, clock: Clock, tz: Option<TzInfo>)

  const Utc := TzInfo(0)
  const Midnight := Clock(0, 0, 0, 0)

  /** `dt_util.parse_datetime`: ISO-8601 datetime parsing, naive or aware, or None. */
  type DateTimeParser = string -> Option<DateTime>

  /** `date.fromisoformat`, with its `ValueError` read as None. */
  type DateParser = string -> Option<Date>

  /** The most recent delivery of a tank, as the sensors read it. */
  datatype Delivery = Delivery(
    propanePricePerGallon: Option<real>,
    propaneGallons: Option<real>,
    grandTotal: real,
    completeDate: Option<DateTime>)

  /** `FerrellgasTankData`, with the `last_delivery` attribute the sensors read. */
  datatype TankData = TankData(
    installedProductId: string,
    siteId: string,
    siteName: string,
    productDescription: string,
    productId: Option<string>,
    fullCapacity: Option<real>,
    fillCapacity: Option<real>,
    estCurrPct: Option<real>,
    estimatedPercentageDate: Option<DateTime>,
    lastDelivery: Option<Delivery>)

  /** `FerrellgasAccountData`. */
  datatype AccountData = AccountData(
    accountId: string,
    accountName: string,
    balance: Option<real>,
    tanks: seq<TankData>)

  /** Label used when a tank has no product description. */
  const DefaultProductDescription: string := "Ferrellgas Tank"

  /** `_to_float`: accept an int, float or bool as a number, anything else as absent. */
  function ToFloat(v: Json): (r: Option<real>)
    ensures r.Some? <==> IsNumber(v)
    ensures v.JInt? ==> r == Some(v.i as real)
    ensures v.JFloat? ==> r == Some(v.x)
    ensures v.JBool? ==> r == Some(if v.b then 1.0 else 0.0)
  {
    match v
    case JInt(i) => Some(i as real)
    case JFloat(x, _) => Some(x)
    case JBool(b) => Some(if b then 1.0 else 0.0)
    case _ => None
  }

  /** Same calendar date and clock reading, whatever the zones. */
  predicate SameWallClock(a: DateTime, b: DateTime)
  {
    a.date == b.date && a.clock == b.clock
  }

  /**
   * `_parse_datetime`: a non-empty string parsed as a datetime (a naive one
   * is taken to be UTC), else as a bare date at midnight UTC, else absent.
   */
  function ParseDatetime(value: Json, parseDateTime: DateTimeParser, parseDate: DateParser): (r: Option<DateTime>)
    ensures r.Some? ==> r.value.tz.Some?
    ensures !(value.JString? && value.s != "") ==> r.None?
    ensures value.JString? && value.s != "" && parseDateTime(value.s).Some? ==>
      var d := parseDateTime(value.s).value;
      r.Some? && SameWallClock(r.value, d) && (d.tz.Some? ==> r.value == d) && (d.tz.None? ==> r.value.tz == Some(Utc))
    ensures value.JString? && value.s != "" && parseDateTime(value.s).None? ==>
      (r.Some? <==> parseDate(value.s).Some?) &&
      (r.Some? ==> r.value == DateTime(parseDate(value.s).value, Midnight, Some(Utc)))
  {
    if !value.JString? || value.s == "" then None
    else
      match parseDateTime(value.s)
      case Some(parsed) =>
        if parsed.tz.None? then Some(parsed.(tz := Some(Utc))) else Some(parsed)
      case None =>
        match parseDate(value.s)
        case Some(day) => Some(DateTime(day, Midnight, Some(Utc)))
        case None => None
  }

  /**
   * `_async_handle_response` as its `except` clause for a non-JSON body
   * intends it: HTTP 401/403 is an
   * authentication error, any other status from 400 up an API error carrying
   * the status and body, then a body that is not JSON or not a JSON object is
   * an API error, and an object is handed back unchanged. `decoded` is the
   * body after JSON decoding, None when it is not JSON; an empty body decodes
   * to JNull.
   */
  function HandleResponse(status: int, body: string, decoded: Option<Json>): (r: Result<seq<(string, Json)>, Failure>)
    ensures (status == 401 || status == 403) ==>
      r == Failure(AuthenticationError("Authentication error: HTTP " + IntToString(status)))
    ensures status >= 400 && status != 401 && status != 403 ==>
      r == Failure(ApiError("API request failed: HTTP " + IntToString(status) + " - " + body))
    ensures status < 400 && decoded.None? ==> r == Failure(ApiError("API returned non-JSON response"))
    ensures status < 400 && decoded.Some? && !decoded.value.JObject? ==>
      r == Failure(ApiError("API returned unexpected payload type"))
    ensures r.Success? <==> status < 400 && decoded.Some? && decoded.value.JObject?
    ensures r.Success? ==> decoded == Some(JObject(r.value))
    ensures r.Failure? ==> IsFerrellgasError(r.error)
  {
    if status == 401 || status == 403 then
      Failure(AuthenticationError("Authentication error: HTTP " + IntToString(status)))
    else if status >= 400 then
      Failure(ApiError("API request failed: HTTP " + IntToString(status) + " - " + body))
    else
      match decoded
      case None => Failure(ApiError("API returned non-JSON response"))
      case Some(data) =>
        if data.JObject? then Success(data.entries)
        else Failure(ApiError("API returned unexpected payload type"))
  }

  /**
   * `_async_handle_response` as written: `response.json(content_type=None)`
   * skips the content-type check, so the `ContentTypeError` branch is never
   * taken and a body that is not JSON raises the decoder's own error.
   */
  function HandleResponseAsWritten(status: int, body: string, decoded: Option<Json>): (r: Result<seq<(string, Json)>, Failure>)
    ensures status >= 400 || decoded.Some? ==> r == HandleResponse(status, body, decoded)
    ensures status < 400 && decoded.None? ==> r == Failure(JsonDecodeError)
  {
    if status == 401 || status == 403 then
      Failure(AuthenticationError("Authentication error: HTTP " + IntToString(status)))
    else if status >= 400 then
      Failure(ApiError("API request failed: HTTP " + IntToString(status) + " - " + body))
    else
      match decoded
      case None => Failure(JsonDecodeError)
      case Some(data) =>
        if data.JObject? then Success(data.entries)
        else Failure(ApiError("API returned unexpected payload type"))
  }

  /** A 200 response whose body is not JSON escapes the integration's error family as written. */
  lemma NonJsonBodyEscapesAsWritten()
    ensures HandleResponseAsWritten(200, "<html>", None) == Failure(JsonDecodeError)
    ensures !IsFerrellgasError(HandleResponseAsWritten(200, "<html>", None).error)
    ensures HandleResponse(200, "<html>", None) == Failure(ApiError("API returned non-JSON response"))
  {
  }

  /** A forbidden response is an authentication error, even though its status is also at least 400. */
  lemma ForbiddenIsAuthenticationError(body: string, decoded: Option<Json>)
    ensures HandleResponse(403, body, decoded).Failure?
    ensures HandleResponse(403, body, decoded).error.AuthenticationError?
  {
  }

  /**
   * The checks `_async_login` applies to the decoded login response: a falsy
   * `success` fails with the server's `error` text (or "Login failed"), and a
   * success without a non-empty string `accessToken` fails too; both are
   * authentication errors.
   */
  function CheckLogin(response: seq<(string, Json)>): (r: Result<string, Failure>)
    ensures r.Success? <==>
      Truthy(Get(response, "success")) && Get(response, "accessToken").JString? && Get(response, "accessToken").s != ""
    ensures r.Success? ==> Get(response, "accessToken") == JString(r.value) && r.value != ""
    ensures r.Failure? ==> r.error.AuthenticationError?
    ensures !Truthy(Get(response, "success")) ==>
      r.Failure? && r.error.message == (if Truthy(Get(response, "error")) then Str(Get(response, "error")) else "Login failed")
    ensures Truthy(Get(response, "success")) && r.Failure? ==>
      r.error.message == "Login succeeded but access token missing"
  {
    if !Truthy(Get(response, "success")) then
      var errorMsg := if Truthy(Get(response, "error")) then Get(response, "error") else JString("Login failed");
      Failure(AuthenticationError(Str(errorMsg)))
    else
      var accessToken := Get(response, "accessToken");
      if !accessToken.JString? || accessToken.s == "" then
        Failure(AuthenticationError("Login succeeded but access token missing"))
      else
        Success(accessToken.s)
  }

  /** The two failure causes of a login: rejected credentials, and a success without a token. */
  lemma LoginFailures()
    ensures CheckLogin([("success", JBool(false)), ("error", JString("bad creds"))])
         == Failure(AuthenticationError("bad creds"))
    ensures CheckLogin([("success", JBool(true))])
         == Failure(AuthenticationError("Login succeeded but access token missing"))
  {
  }

  /**
   * The account list of `async_get_accounts`: `Accounts` (empty when absent)
   * must be a list, and each entry becomes its `str()`.
   */
  function AccountIds(userMe: seq<(string, Json)>): (r: Result<seq<string>, Failure>)
    ensures r.Failure? <==> !GetOr(userMe, "Accounts", JArray([])).JArray?
    ensures r.Failure? ==> r.error == ApiError("Unexpected response type for Accounts")
    ensures r.Success? ==>
      var items := GetOr(userMe, "Accounts", JArray([])).items;
      |r.value| == |items| && forall k :: 0 <= k < |items| ==> r.value[k] == Str(items[k])
  {
    var accounts := GetOr(userMe, "Accounts", JArray([]));
    if !accounts.JArray? then Failure(ApiError("Unexpected response type for Accounts"))
    else Success(seq(|accounts.items|, k requires 0 <= k < |accounts.items| => Str(accounts.items[k])))
  }
}
