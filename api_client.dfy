/**
  The HTTP client wrapper (`ApiClient`): how a failed request is classified into
  `{ status, message, errors? }`, the bearer-token store, and the request
  interceptor that adds the `Authorization` and `X-CSRF-TOKEN` headers.
  Status codes are those of section 15 of RFC 9110 (400, 401, 403, 404, 422, 500, 503).
 */
module Api {
  import opened Js

  const BadRequest := 400
  const Unauthorized := 401
  const Forbidden := 403
  const NotFound := 404
  const UnprocessableEntity := 422
  const InternalServerError := 500
  const ServiceUnavailable := 503

  const UnknownErrorMessage := "Đã xảy ra lỗi không xác định"
  const NetworkErrorMessage := "Không thể kết nối đến máy chủ. Vui lòng kiểm tra kết nối mạng."
  const UnknownBodyMessage := "Lỗi không xác định"
  const BadRequestMessage := "Yêu cầu không hợp lệ"
  const UnauthorizedMessage := "Bạn cần đăng nhập để thực hiện hành động này"
  const ForbiddenMessage := "Bạn không có quyền thực hiện hành động này"
  const NotFoundMessage := "Không tìm thấy dữ liệu"
  const ValidationMessage := "Dữ liệu không hợp lệ"
  const ServerErrorMessage := "Lỗi máy chủ nội bộ"
  const UnavailableMessage := "Dịch vụ tạm thời không khả dụng"

  /** Field name to its messages, in `Object.entries` order. */
  type FieldErrors = seq<(string, seq<string>)>

  /** The classified error every failed request is rejected with. */
  datatype ApiError = ApiError(status: int, message: string, errors: Option<FieldErrors>)

  /**
    A response body: a string, an object (its `message`, `error` and `errors`
    properties, `None` when absent), or anything else (absent, null, a number, a boolean).
   */
  datatype ResponseBody =
    | Text(text: string)
    | Record(message: Option<string>, error: Option<string>, errors: Option<FieldErrors>)
    | NonObject

  /** The shape of an axios failure. */
  datatype Failure =
    | WithResponse(status: int, body: ResponseBody)
    | NoResponse
    | SetupFailure(message: Option<string>)

  /** A present, non-empty string. */
  predicate Given(s: Option<string>) {
    s.Some? && s.value != ""
  }

  /** `getErrorMessage(data)` */
  function GetErrorMessage(body: ResponseBody): (m: string)
    ensures body.Text? ==> m == body.text
    ensures body.Record? && Given(body.message) ==> m == body.message.value
    ensures body.Record? && !Given(body.message) && Given(body.error) ==> m == body.error.value
    ensures body.NonObject? || (body.Record? && !Given(body.message) && !Given(body.error)) ==> m == UnknownBodyMessage
  {
    match body
    case Text(s) => s
    case Record(message, error, _) =>
      if Given(message) then message.value
      else if Given(error) then error.value
      else UnknownBodyMessage
    case NonObject => UnknownBodyMessage
  }

  /** The status codes the `switch` gives a fixed message. */
  predicate KnownStatus(status: int) {
    status in {BadRequest, Unauthorized, Forbidden, NotFound, UnprocessableEntity, InternalServerError, ServiceUnavailable}
  }

  /** The fixed messages of the `switch`. */
  function FixedMessage(status: int): (m: string)
    requires KnownStatus(status)
    ensures m != ""
  {
    if status == BadRequest then BadRequestMessage
    else if status == Unauthorized then UnauthorizedMessage
    else if status == Forbidden then ForbiddenMessage
    else if status == NotFound then NotFoundMessage
    else if status == UnprocessableEntity then ValidationMessage
    else if status == InternalServerError then ServerErrorMessage
    else UnavailableMessage
  }

  /** The message the `switch` chooses for a response status. */
  function StatusMessage(status: int, body: ResponseBody): (m: string)
    ensures m != ""
    ensures KnownStatus(status) ==> m == FixedMessage(status)
    ensures !KnownStatus(status) ==> m == "Lỗi " + IntToString(status) + ": " + GetErrorMessage(body)
  {
    if KnownStatus(status) then FixedMessage(status)
    else "Lỗi " + IntToString(status) + ": " + GetErrorMessage(body)
  }

  /** A truthy `message` property of an object body replaces the message the switch chose. */
  predicate BodyOverridesMessage(body: ResponseBody) {
    body.Record? && Given(body.message)
  }

  /** `handleError` without its side effect: the error the request is rejected with. */
  function Classify(f: Failure): (e: ApiError)
    ensures e.message != ""
    ensures f.WithResponse? ==> e.status == f.status
    ensures f.WithResponse? && BodyOverridesMessage(f.body) ==> e.message == f.body.message.value
    ensures f.WithResponse? && !BodyOverridesMessage(f.body) ==> e.message == StatusMessage(f.status, f.body)
    ensures e.errors.Some? <==> f.WithResponse? && f.status == UnprocessableEntity && f.body.Record? && f.body.errors.Some?
    ensures e.errors.Some? ==> e.errors == f.body.errors
    ensures f.NoResponse? ==> e == ApiError(0, NetworkErrorMessage, None)
    ensures f.SetupFailure? ==>
      e.status == 500 && e.message == (if Given(f.message) then f.message.value else UnknownErrorMessage)
  {
    match f
    case WithResponse(status, body) =>
      var errors := if status == UnprocessableEntity && body.Record? then body.errors else None;
      var message := if BodyOverridesMessage(body) then body.message.value else StatusMessage(status, body);
      ApiError(status, message, errors)
    case NoResponse => ApiError(0, NetworkErrorMessage, None)
    case SetupFailure(message) =>
      ApiError(500, if Given(message) then message.value else UnknownErrorMessage, None)
  }

  /** Only a 401 response logs the user out. */
  predicate LogsOut(f: Failure) {
    f.WithResponse? && f.status == Unauthorized
  }

  /** `token ? "Bearer " + token` and the CSRF meta tag, added to the outgoing headers. */
  function WithAuthHeaders(headers: map<string, string>, token: Option<string>, csrf: Option<string>): (r: map<string, string>)
    ensures Given(token) ==> "Authorization" in r && r["Authorization"] == "Bearer " + token.value
    ensures !Given(token) ==> ("Authorization" in r <==> "Authorization" in headers)
    ensures !Given(token) && "Authorization" in headers ==> r["Authorization"] == headers["Authorization"]
    ensures Given(csrf) ==> "X-CSRF-TOKEN" in r && r["X-CSRF-TOKEN"] == csrf.value
    ensures !Given(csrf) ==> ("X-CSRF-TOKEN" in r <==> "X-CSRF-TOKEN" in headers)
    ensures !Given(csrf) && "X-CSRF-TOKEN" in headers ==> r["X-CSRF-TOKEN"] == headers["X-CSRF-TOKEN"]
    ensures forall k :: k in headers && k != "Authorization" && k != "X-CSRF-TOKEN" ==> k in r && r[k] == headers[k]
    ensures r.Keys <= headers.Keys + {"Authorization", "X-CSRF-TOKEN"}
  {
    var h := if Given(token) then headers["Authorization" := "Bearer " + token.value] else headers;
    if Given(csrf) then h["X-CSRF-TOKEN" := csrf.value] else h
  }

  /** The per-request `config`, whose headers the interceptor changes in place. */
  class RequestConfig {
    var headers: map<string, string>

    constructor (headers: map<string, string>)
      ensures this.headers == headers
    {
      this.headers := headers;
    }
  }

  /**
    The client's browser-side state: the `auth_token` entry of local storage, the
    `content` of the `csrf-token` meta tag, and every assignment to `window.location.href`.
    Outside a browser (`typeof window === "undefined"`) storage is neither read nor written.
   */
  class ApiClient {
    const inBrowser: bool
    const csrfMeta: Option<string>
    var storedToken: Option<string>
    var redirects: seq<string>

    constructor (inBrowser: bool, storedToken: Option<string>, csrfMeta: Option<string>)
      ensures this.inBrowser == inBrowser && this.storedToken == storedToken && this.csrfMeta == csrfMeta
      ensures redirects == []
    {
      this.inBrowser := inBrowser;
      this.storedToken := storedToken;
      this.csrfMeta := csrfMeta;
      redirects := [];
    }

    /** `getAuthToken` */
    function AuthToken(): (t: Option<string>)
      reads this
      ensures !inBrowser ==> t == None
      ensures inBrowser ==> t == storedToken
    {
      if inBrowser then storedToken else None
    }

    /** `getCsrfToken`: an empty `content` attribute counts as no token. */
    function CsrfToken(): (t: Option<string>)
      reads this
      ensures t.Some? ==> t.value != ""
      ensures !inBrowser ==> t == None
      ensures inBrowser && csrfMeta.Some? && csrfMeta.value != "" ==> t == csrfMeta
      ensures csrfMeta.None? || csrfMeta == Some("") ==> t == None
    {
      if inBrowser && Given(csrfMeta) then csrfMeta else None
    }

    /** `setAuthToken`: a later read returns the token. */
    method SetAuthToken(token: string)
      modifies this`storedToken
      ensures storedToken == if inBrowser then Some(token) else old(storedToken)
      ensures inBrowser ==> AuthToken() == Some(token)
    {
      if inBrowser {
        storedToken := Some(token);
      }
    }

    /** `clearAuth`: no token can be read afterwards. */
    method ClearAuth()
      modifies this`storedToken
      ensures storedToken == if inBrowser then None else old(storedToken)
      ensures AuthToken() == None
    {
      if inBrowser {
        storedToken := None;
      }
    }

    /** The request interceptor. */
    method Intercept(config: RequestConfig)
      modifies config`headers
      ensures config.headers == WithAuthHeaders(old(config.headers), AuthToken(), CsrfToken())
    {
      config.headers := WithAuthHeaders(config.headers, AuthToken(), CsrfToken());
    }

    /** `handleError`: classify, and on a 401 clear the token and send the browser to /login. */
    method HandleError(f: Failure) returns (e: ApiError)
      modifies this`storedToken, this`redirects
      ensures e == Classify(f)
      ensures storedToken == if LogsOut(f) && inBrowser then None else old(storedToken)
      ensures redirects == old(redirects) + if LogsOut(f) && inBrowser then ["/login"] else []
    {
      if LogsOut(f) {
        ClearAuth();
        if inBrowser {
          redirects := redirects + ["/login"];
        }
      }
      e := Classify(f);
    }
  }

  /** The interceptor sends an X-CSRF-TOKEN header of its own exactly when a browser page carries a non-empty meta tag. */
  lemma CsrfHeaderFollowsMeta(client: ApiClient, headers: map<string, string>)
    requires "X-CSRF-TOKEN" !in headers
    ensures "X-CSRF-TOKEN" in WithAuthHeaders(headers, client.AuthToken(), client.CsrfToken()) <==>
      client.inBrowser && Given(client.csrfMeta)
    ensures client.inBrowser && Given(client.csrfMeta) ==>
      WithAuthHeaders(headers, client.AuthToken(), client.CsrfToken())["X-CSRF-TOKEN"] == client.csrfMeta.value
  {
  }

  /** After `clearAuth` the interceptor adds no Authorization header of its own. */
  method ClearedClientAddsNoBearer(client: ApiClient, config: RequestConfig)
    modifies client`storedToken, config`headers
    ensures "Authorization" in config.headers <==> "Authorization" in old(config.headers)
  {
    client.ClearAuth();
    client.Intercept(config);
  }
}
