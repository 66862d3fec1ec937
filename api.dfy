/**
 * src/utils/api.js: the rules `request` applies around `fetch` (headers, the error it
 * throws for a failed response, the rewrite of connection failures), the body encoding
 * of `post`, and `apiUtils.getImageUrl` / `apiUtils.getErrorMessage`. `fetch` itself is
 * an outcome handed in by the caller.
 */
module Api {
  import opened Wrappers
  import opened Strings
  import opened JsonValues

  /** `NEXT_PUBLIC_USER_SERVICE_URL || 'http://localhost:8080'`; "" is an unset variable. */
  function UserServiceUrl(env: string): string {
    if env != "" then env else "http://localhost:8080"
  }

  /** `NEXT_PUBLIC_PRODUCT_SERVICE_URL || 'http://localhost:8082'`. */
  function ProductServiceUrl(env: string): string {
    if env != "" then env else "http://localhost:8082"
  }

  // ---------------------------------------------------------------- apiUtils

  const DefaultProductImage := "/images/default-product.svg"

  /** `getImageUrl(imagePath)` against the product service URL; "" is a falsy path. */
  function GetImageUrl(productServiceUrl: string, imagePath: string): (r: string)
    ensures imagePath == "" ==> r == DefaultProductImage
    ensures imagePath != "" && StartsWith(imagePath, "http") ==> r == imagePath
    ensures imagePath != "" && !StartsWith(imagePath, "http") ==> r == productServiceUrl + imagePath
  {
    if imagePath == "" then DefaultProductImage
    else if StartsWith(imagePath, "http") then imagePath
    else productServiceUrl + imagePath
  }

  /**
   * Never empty, and, for an absolute service URL, a URL already produced for a real
   * path comes back unchanged. The placeholder is relative, so it is not a fixed point.
   */
  lemma ImageUrlSettles(base: string, path: string)
    requires StartsWith(base, "http")
    ensures GetImageUrl(base, path) != ""
    ensures path != "" ==> GetImageUrl(base, GetImageUrl(base, path)) == GetImageUrl(base, path)
    ensures GetImageUrl(base, GetImageUrl(base, "")) == base + DefaultProductImage
  {
    if path != "" && !StartsWith(path, "http") {
      var r := base + path;
      assert r[..4] == base[..4];
    }
    assert DefaultProductImage[0] == '/';
    assert !StartsWith(DefaultProductImage, "http");
  }

  /**
   * What `getErrorMessage` can be handed: a string, `null`/`undefined`, or an object
   * with `message`, `response.data.message` and `response.data.error` ("" when falsy).
   */
  datatype ErrorValue =
    | StringError(text: string)
    | Nullish
    | ErrorObject(message: string, dataMessage: string, dataError: string)

  const UnknownError := "알 수 없는 오류가 발생했습니다."

  function GetErrorMessage(error: ErrorValue): string {
    match error
    case StringError(text) => text
    case Nullish => UnknownError
    case ErrorObject(message, dataMessage, dataError) =>
      if message != "" then message
      else if dataMessage != "" then dataMessage
      else if dataError != "" then dataError
      else UnknownError
  }

  /**
   * A string comes back as it is, even when empty; otherwise the first non-empty of
   * `message`, `response.data.message`, `response.data.error`, then the fixed text, wins,
   * so the result is empty only for the empty string.
   */
  lemma ErrorMessagePriority(error: ErrorValue)
    ensures GetErrorMessage(error) == "" <==> error == StringError("")
    ensures error.StringError? ==> GetErrorMessage(error) == error.text
    ensures error.ErrorObject? && error.message != "" ==> GetErrorMessage(error) == error.message
    ensures error.ErrorObject? && error.message == "" && error.dataMessage != "" ==> GetErrorMessage(error) == error.dataMessage
    ensures error.ErrorObject? && error.message == "" && error.dataMessage == "" && error.dataError != "" ==> GetErrorMessage(error) == error.dataError
    ensures error.Nullish? || error == ErrorObject("", "", "") ==> GetErrorMessage(error) == UnknownError
  {
  }

  // ---------------------------------------------------------------- request

  /** `config.body`: absent, a `FormData`, or a string. */
  datatype Body = NoBody | FormDataBody | TextBody(text: string)

  /** The headers `request` sends: the caller's, then `Content-Type` and `Authorization`; "" is no token. */
  function RequestHeaders(optionHeaders: map<string, string>, body: Body, token: string): map<string, string> {
    var h := if body != FormDataBody then optionHeaders["Content-Type" := "application/json"] else optionHeaders;
    if token != "" then h["Authorization" := "Bearer " + token] else h
  }

  /**
   * `Content-Type: application/json` is forced exactly when the body is not a `FormData`,
   * `Authorization: Bearer <token>` exactly when a token is stored, and every other
   * header the caller gave passes through.
   */
  lemma HeaderPolicy(optionHeaders: map<string, string>, body: Body, token: string)
    ensures var h := RequestHeaders(optionHeaders, body, token);
      && (body != FormDataBody ==> "Content-Type" in h && h["Content-Type"] == "application/json")
      && (body == FormDataBody ==> ("Content-Type" in h <==> "Content-Type" in optionHeaders))
      && (token != "" ==> "Authorization" in h && h["Authorization"] == "Bearer " + token)
      && (token == "" ==> ("Authorization" in h <==> "Authorization" in optionHeaders))
      && (forall k :: k in optionHeaders ==> k in h)
      && (forall k :: k in optionHeaders && k != "Content-Type" && k != "Authorization" ==> h[k] == optionHeaders[k])
      && (forall k :: k in h ==> k in optionHeaders || k == "Content-Type" || k == "Authorization")
  {
  }

  /** The statements of `request` that fill `config.headers`, one after the other. */
  method BuildRequestHeaders(optionHeaders: map<string, string>, body: Body, token: string) returns (headers: map<string, string>)
    ensures headers == RequestHeaders(optionHeaders, body, token)
  {
    headers := optionHeaders;
    if !(body == FormDataBody) {
      headers := headers["Content-Type" := "application/json"];
    }
    if token != "" {
      headers := headers["Authorization" := "Bearer " + token];
    }
  }

  /**
   * The message of the `TypeError` that reading `errorData.error` raises when the error
   * body is the JSON text `null` (as the V8 engine words it).
   */
  const NullPropertyError := "Cannot read " + "properties " + "of null " + "(reading 'error')"

  /**
   * The message of the error thrown for a failed response:
   * `errorData.error || errorData.message || \`HTTP error! status: ${status}\``, where
   * `errorData` is the parsed error body, or `{}` when it does not parse. A body that
   * parses to `null` makes the property read itself throw.
   */
  function HttpErrorMessage(errorBody: Parse, status: nat): (r: string)
    ensures r != ""
    ensures errorBody == Parsed(JNull) ==> r == NullPropertyError
    ensures errorBody != Parsed(JNull) && StringField(errorBody, "error") != "" ==>
      r == StringField(errorBody, "error")
    ensures errorBody != Parsed(JNull) && StringField(errorBody, "error") == "" && StringField(errorBody, "message") != "" ==>
      r == StringField(errorBody, "message")
    ensures errorBody != Parsed(JNull) && r != "HTTP error! status: " + NatToString(status) ==>
      r == StringField(errorBody, "error") || r == StringField(errorBody, "message")
  {
    if errorBody == Parsed(JNull) then NullPropertyError
    else
      var error := StringField(errorBody, "error");
      var message := StringField(errorBody, "message");
      if error != "" then error
      else if message != "" then message
      else "HTTP error! status: " + NatToString(status)
  }

  /** A non-empty string property of a parsed body, or "". */
  function StringField(body: Parse, key: string): (r: string)
    ensures r != "" ==> body.Parsed? && Field(body.value, key) == Some(JStr(r))
  {
    if body.Parsed? && Field(body.value, key).Some? && Field(body.value, key).value.JStr? then
      Field(body.value, key).value.s
    else ""
  }

  /** With no usable `error` or `message` in the body, the message is the status line. */
  lemma HttpErrorFallsBackToStatus(errorBody: Parse, status: nat)
    requires errorBody != Parsed(JNull)
    requires StringField(errorBody, "error") == "" && StringField(errorBody, "message") == ""
    ensures HttpErrorMessage(errorBody, status) == "HTTP error! status: " + NatToString(status)
    ensures StartsWith(HttpErrorMessage(errorBody, status), "HTTP error! status: ")
  {
    var r := HttpErrorMessage(errorBody, status);
    assert r[..|"HTTP error! status: "|] == "HTTP error! status: ";
  }

  /**
   * A `null` error body does not yield the status line: the failed property read throws a
   * `TypeError`, whose message names no connection failure, so `request` rethrows it as it is.
   */
  lemma NullErrorBodyRethrown(baseUrl: string, status: nat, contentType: string, json: Parse)
    ensures HttpErrorMessage(Parsed(JNull), status) == NullPropertyError
    ensures !StartsWith(HttpErrorMessage(Parsed(JNull), status), "HTTP error! status: ")
    ensures Request(baseUrl, Response(false, status, Parsed(JNull), contentType, json)) == Threw(NullPropertyError)
  {
    assert NullPropertyError[0] != "HTTP error! status: "[0];
    NullPropertyErrorKept(baseUrl);
  }

  /** The `TypeError` names no connection failure, so the `catch` rethrows it as it is. */
  lemma NullPropertyErrorKept(baseUrl: string)
    ensures Rethrown(baseUrl, NullPropertyError) == NullPropertyError
  {
    var a, b, c, d := "Cannot read ", "properties ", "of null ", "(reading 'error')";
    assert NullPropertyError == a + b + c + d;
    assert 'F' !in a && 'F' !in b && 'F' !in c && 'F' !in d;
    assert 'E' !in a && 'E' !in b && 'E' !in c && 'E' !in d;
    NotContainsWithoutLead(NullPropertyError, "Failed to fetch");
    NotContainsWithoutLead(NullPropertyError, "ERR_FAILED");
  }

  /** `error.message.includes('Failed to fetch') || error.message.includes('ERR_FAILED')`. */
  predicate IsConnectionFailure(message: string) {
    Contains(message, "Failed to fetch") || Contains(message, "ERR_FAILED")
  }

  /** `baseUrl.includes('8080') ? 'User Service' : 'Product Service'`. */
  function ServiceName(baseUrl: string): string {
    if Contains(baseUrl, "8080") then "User Service" else "Product Service"
  }

  const Unreachable := " 서버에 연결할 수 없습니다. 서버 상태를 확인해주세요."

  /** The message of the error `request` throws for one caught with `message`. */
  function Rethrown(baseUrl: string, message: string): string {
    if IsConnectionFailure(message) then ServiceName(baseUrl) + Unreachable else message
  }

  /**
   * A connection failure is replaced by the unreachable-service text, naming the user
   * service exactly when the base URL contains `8080`; anything else is rethrown as it was.
   */
  lemma RethrowRule(baseUrl: string, message: string)
    ensures !IsConnectionFailure(message) ==> Rethrown(baseUrl, message) == message
    ensures IsConnectionFailure(message) && Contains(baseUrl, "8080") ==> Rethrown(baseUrl, message) == "User Service" + Unreachable
    ensures IsConnectionFailure(message) && !Contains(baseUrl, "8080") ==> Rethrown(baseUrl, message) == "Product Service" + Unreachable
  {
  }

  /** With the default URL the user API calls itself the user service. */
  lemma DefaultUserServiceName()
    ensures ServiceName(UserServiceUrl("")) == "User Service"
  {
    var u := UserServiceUrl("");
    assert u[17..21] == "8080";
    ContainsAt(u, "8080", 17);
  }

  /** With the default URL the product API calls itself the product service: `8082` is not `8080`. */
  lemma DefaultProductServiceName()
    ensures ServiceName(ProductServiceUrl("")) == "Product Service"
  {
    var host, port := "http://localhost:", "8082";
    var u := ProductServiceUrl("");
    assert u == host + port;
    assert '8' !in host;
    forall k: nat
      ensures !OccursAt(u, "8080", k)
    {
      if k + 4 > |u| {
      } else if k < |host| {
        assert u[k..k + 4][0] == host[k];
      } else {
        assert u[k..k + 4][3] == port[3];
      }
    }
    NoOccurrence(u, "8080");
  }

  /** What `fetch` produced: a rejection, or a response with its status, error body, content type and JSON body. */
  datatype Fetched =
    | Rejected(message: string)
    | Response(ok: bool, status: nat, errorBody: Parse, contentType: string, json: Parse)

  /** How `request` settles: it throws with a message, resolves to JSON, or to the raw response. */
  datatype Settled = Threw(message: string) | ResolvedJson(value: Json) | ResolvedResponse

  /**
   * `request` after `fetch`. Every error raised inside the `try` (the rejection, the
   * status error, a JSON body that does not parse) goes through the same rewrite.
   */
  function Request(baseUrl: string, fetched: Fetched): Settled {
    match fetched
    case Rejected(m) => Threw(Rethrown(baseUrl, m))
    case Response(ok, status, errorBody, contentType, json) =>
      if !ok then Threw(Rethrown(baseUrl, HttpErrorMessage(errorBody, status)))
      else if Contains(contentType, "application/json") then
        match json
        case Parsed(v) => ResolvedJson(v)
        case SyntaxError(m) => Threw(Rethrown(baseUrl, m))
      else ResolvedResponse
  }

  /**
   * A failed status always throws, even when the body would parse; a network failure
   * names the unreachable service; a success resolves to JSON only for a JSON content type.
   */
  lemma RequestOutcomes(baseUrl: string, fetched: Fetched)
    ensures fetched.Response? && !fetched.ok ==> Request(baseUrl, fetched).Threw?
    ensures fetched.Rejected? && Contains(fetched.message, "Failed to fetch") ==>
      Request(baseUrl, fetched) == Threw(ServiceName(baseUrl) + Unreachable)
    ensures Request(baseUrl, fetched).ResolvedJson? ==>
      fetched.Response? && fetched.ok && Contains(fetched.contentType, "application/json") && fetched.json == Parsed(Request(baseUrl, fetched).value)
    ensures fetched.Response? && fetched.ok && !Contains(fetched.contentType, "application/json") ==>
      Request(baseUrl, fetched) == ResolvedResponse
  {
  }

  // ---------------------------------------------------------------- post

  /**
   * The `data` handed to `post`: a `FormData`, a value whose `JSON.stringify` is `text`,
   * or none at all (`post(url)`), whose `JSON.stringify(undefined)` leaves no body.
   */
  datatype PostData = FormDataValue | Serialisable(text: string) | Omitted

  /** The caller's `options` as `post` reads them: an optional `method` (`verb`), the `headers`, an optional `body`. */
  datatype Options = Options(verb: Option<string>, headers: map<string, string>, body: Body)

  /** The options `request` receives: `{method: 'POST', ...options, body}`. */
  datatype RequestOptions = RequestOptions(verb: string, headers: map<string, string>, body: Body)

  function PostOptions(options: Options, data: PostData): RequestOptions {
    var body := match data
      case FormDataValue => FormDataBody
      case Serialisable(text) => TextBody(text)
      case Omitted => NoBody;
    RequestOptions(if options.verb.Some? then options.verb.value else "POST", options.headers, body)
  }

  /**
   * A `FormData` is passed through as the body and any other data is sent as its JSON
   * text, whatever body the options named; the method is `POST` unless the options
   * name one; and a `FormData` post sends no forced `Content-Type`.
   */
  lemma PostEncoding(options: Options, data: PostData, token: string)
    ensures var r := PostOptions(options, data);
      && (data == FormDataValue <==> r.body == FormDataBody)
      && (data.Serialisable? ==> r.body == TextBody(data.text))
      && (data == Omitted <==> r.body == NoBody)
      && (options.verb.None? ==> r.verb == "POST")
      && (options.verb.Some? ==> r.verb == options.verb.value)
      && r.headers == options.headers
      && (data == FormDataValue && "Content-Type" !in options.headers ==>
            "Content-Type" !in RequestHeaders(r.headers, r.body, token))
      && (data != FormDataValue ==> RequestHeaders(r.headers, r.body, token)["Content-Type"] == "application/json")
  {
    HeaderPolicy(options.headers, PostOptions(options, data).body, token);
  }
}
