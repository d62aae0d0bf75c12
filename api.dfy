/**
 * The pure parts of src/utils/api.ts: the API base address, the header
 * dictionary an `ApiClient` keeps and merges into every request, the
 * products endpoint, and `handleApiError`, which turns whatever was thrown
 * into the message shown to the user.
 */
module Api {
  import opened Wrappers
  import opened Strings

  const DEFAULT_API_BASE := "https://api.humanbo.com"
  const CONTENT_TYPE := "Content-Type"
  const JSON_CONTENT := "application/json"
  const AUTHORIZATION := "Authorization"
  const FALLBACK_ERROR := "An unexpected error occurred. Please try again."
  const PRODUCTS_PREFIX := "/products/"

  /** `import.meta.env.VITE_API_URL || 'https://api.humanbo.com'`; the build environment is a parameter. */
  function ApiBaseUrl(configured: Option<string>): (base: string)
    ensures IsTruthy(configured) ==> base == configured.value
    ensures !IsTruthy(configured) ==> base == DEFAULT_API_BASE
    ensures base != ""
  {
    if IsTruthy(configured) then configured.value else DEFAULT_API_BASE
  }

  /** The headers every new client starts with. */
  function InitialHeaders(): (h: map<string, string>)
    ensures h.Keys == {CONTENT_TYPE} && h[CONTENT_TYPE] == JSON_CONTENT
  {
    map[CONTENT_TYPE := JSON_CONTENT]
  }

  /** The header dictionary after `setAuthToken(token)`. */
  function WithAuthToken(headers: map<string, string>, token: string): (r: map<string, string>)
    ensures r.Keys == headers.Keys + {AUTHORIZATION}
    ensures r[AUTHORIZATION] == "Bearer " + token
    ensures forall k | k in headers && k != AUTHORIZATION :: r[k] == headers[k]
  {
    headers[AUTHORIZATION := "Bearer " + token]
  }

  /** The header dictionary after `removeAuthToken()`. */
  function WithoutAuthToken(headers: map<string, string>): (r: map<string, string>)
    ensures r.Keys == headers.Keys - {AUTHORIZATION}
    ensures forall k | k in r :: r[k] == headers[k]
  {
    headers - {AUTHORIZATION}
  }

  /** Removing the token after setting it restores a dictionary that had none. */
  lemma SetThenRemoveAuthToken(headers: map<string, string>, token: string)
    requires AUTHORIZATION !in headers
    ensures WithoutAuthToken(WithAuthToken(headers, token)) == headers
  {
  }

  /** Setting a token twice keeps only the second. */
  lemma SetAuthTokenTwice(headers: map<string, string>, first: string, second: string)
    ensures WithAuthToken(WithAuthToken(headers, first), second) == WithAuthToken(headers, second)
  {
  }

  /** A token changes nothing but the Authorization header: removing it from both sides gives the same dictionary. */
  lemma AuthTokenOnlyTouchesAuthorization(headers: map<string, string>, token: string)
    ensures WithoutAuthToken(WithAuthToken(headers, token)) == WithoutAuthToken(headers)
  {
  }

  /** `{ ...defaults, ...overrides }`: per-call headers win key by key. */
  function MergeHeaders(defaults: map<string, string>, overrides: Option<map<string, string>>): (r: map<string, string>)
    ensures overrides.None? ==> r == defaults
    ensures overrides.Some? ==> r.Keys == defaults.Keys + overrides.value.Keys
    ensures overrides.Some? ==> forall k | k in overrides.value :: r[k] == overrides.value[k]
    ensures forall k | k in defaults && (overrides.None? || k !in overrides.value) :: r[k] == defaults[k]
  {
    if overrides.Some? then defaults + overrides.value else defaults
  }

  /** The address a request goes to: the base address followed by the endpoint. */
  function RequestUrl(base: string, endpoint: string): (url: string)
    ensures StartsWith(url, base)
    ensures |url| == |base| + |endpoint| && url[|base|..] == endpoint
  {
    base + endpoint
  }

  /** `endpoints.products.details(id)`. */
  function ProductDetails(id: string): (path: string)
    ensures StartsWith(path, PRODUCTS_PREFIX)
  {
    PRODUCTS_PREFIX + id
  }

  /** The product id a details path names, if it is one. */
  function ProductIdOf(path: string): (id: Option<string>)
    ensures id.Some? <==> StartsWith(path, PRODUCTS_PREFIX)
    ensures id.Some? ==> ProductDetails(id.value) == path
  {
    if StartsWith(path, PRODUCTS_PREFIX) then Some(path[|PRODUCTS_PREFIX|..]) else None
  }

  /** The details path of an id reads back as that id, so different ids get different paths. */
  lemma ProductDetailsRoundTrip(id: string)
    ensures ProductIdOf(ProductDetails(id)) == Some(id)
  {
    assert (PRODUCTS_PREFIX + id)[|PRODUCTS_PREFIX|..] == id;
  }

  /** Every path under the products prefix is the details path of the id it names. */
  lemma ProductPathRoundTrip(path: string)
    requires ProductIdOf(path).Some?
    ensures ProductDetails(ProductIdOf(path).value) == path
  {
    assert path == path[..|PRODUCTS_PREFIX|] + path[|PRODUCTS_PREFIX|..];
  }

  /** A request's target and headers. */
  datatype Request = Request(url: string, headers: map<string, string>)

  /** The header dictionary and base address of src/utils/api.ts's `ApiClient`. */
  class ApiClient {
    var baseUrl: string
    var defaultHeaders: map<string, string>

    constructor(baseUrl: string)
      ensures this.baseUrl == baseUrl
      ensures defaultHeaders == InitialHeaders()
    {
      this.baseUrl := baseUrl;
      defaultHeaders := InitialHeaders();
    }

    method SetAuthToken(token: string)
      modifies this
      ensures defaultHeaders == WithAuthToken(old(defaultHeaders), token)
      ensures baseUrl == old(baseUrl)
    {
      defaultHeaders := defaultHeaders[AUTHORIZATION := "Bearer " + token];
    }

    method RemoveAuthToken()
      modifies this
      ensures defaultHeaders == WithoutAuthToken(old(defaultHeaders))
      ensures baseUrl == old(baseUrl)
    {
      defaultHeaders := defaultHeaders - {AUTHORIZATION};
    }

    /** What `request(endpoint, options)` hands to `fetch`. */
    function RequestFor(endpoint: string, headers: Option<map<string, string>>): (r: Request)
      reads this
      ensures r.url == RequestUrl(baseUrl, endpoint)
      ensures r.headers == MergeHeaders(defaultHeaders, headers)
    {
      Request(baseUrl + endpoint, if headers.Some? then defaultHeaders + headers.value else defaultHeaders)
    }
  }

  /**
   * A thrown value as `handleApiError` sees it: a string, an object whose
   * `message` and `error` properties may be strings, or anything else
   * (`null`, `undefined`, a number) with neither.
   */
  datatype ErrorValue =
    | StringError(text: string)
    | ObjectError(message: Option<string>, error: Option<string>)
    | OtherError

  /** `new Error(message)`: an object whose `message` is shown unless it is empty. */
  function ThrownError(message: string): (e: ErrorValue)
    ensures HandleApiError(e) == if message != "" then message else FALLBACK_ERROR
  {
    ObjectError(Some(message), None)
  }

  /** `handleApiError`: a string as it is, else a truthy `message`, else a truthy `error`, else a fixed fallback. */
  function HandleApiError(e: ErrorValue): (r: string)
    ensures e.StringError? ==> r == e.text
    ensures e.ObjectError? && IsTruthy(e.message) ==> r == e.message.value
    ensures e.ObjectError? && !IsTruthy(e.message) && IsTruthy(e.error) ==> r == e.error.value
    ensures !e.StringError? && !(e.ObjectError? && (IsTruthy(e.message) || IsTruthy(e.error))) ==> r == FALLBACK_ERROR
  {
    match e
    case StringError(text) => text
    case ObjectError(message, error) =>
      if IsTruthy(message) then message.value
      else if IsTruthy(error) then error.value
      else FALLBACK_ERROR
    case OtherError => FALLBACK_ERROR
  }

  /** Only a thrown empty string gives an empty message; everything else yields something to show. */
  lemma HandleApiErrorEmpty(e: ErrorValue)
    ensures HandleApiError(e) == "" <==> e == StringError("")
  {
  }

  /** The message of a thrown `Error` is shown as it is, when it is not empty. */
  lemma HandleThrownError(message: string)
    requires message != ""
    ensures HandleApiError(ThrownError(message)) == message
  {
  }
}
