/**
 * The browser's API client: a request interceptor that attaches the stored
 * token as a bearer header, and a response interceptor that logs the user
 * out on a 401. Local storage, the request's headers and the window's
 * location are the state these change.
 */
module ApiClient {
  import opened Builtins

  const TokenKey: string := "token"
  const UserKey: string := "user"
  const AuthorizationHeader: string := "Authorization"
  const LoginPage: string := "/login"

  type Storage = map<string, string>
  type Headers = map<string, string>

  /** A rejected request: `err.response?.status`, absent when there was no response. */
  datatype HttpError = HttpError(status: Option<int>)

  /** The header value built from a token: "Bearer " followed by the token itself. */
  function BearerHeader(token: string): (header: string)
    ensures StartsWith(header, "Bearer ") && header[|"Bearer "|..] == token
  {
    "Bearer " + token
  }

  /** `localStorage.getItem(key)`: `None` for a key that is not stored. */
  function Get(storage: Storage, key: string): (v: Option<string>)
    ensures v.Some? <==> key in storage
    ensures v.Some? ==> v.value == storage[key]
  {
    if key in storage then Some(storage[key]) else None
  }

  /**
   * The headers a request leaves with: a non-empty stored token sets
   * Authorization to its bearer header and touches nothing else; with no
   * token, or an empty one, the headers are left as they are.
   */
  function WithAuthorization(headers: Headers, storage: Storage): (out: Headers)
    ensures Truthy(Get(storage, TokenKey)) ==> out == headers[AuthorizationHeader := BearerHeader(storage[TokenKey])]
    ensures !Truthy(Get(storage, TokenKey)) ==> out == headers
    ensures forall k :: k != AuthorizationHeader ==> (k in out <==> k in headers)
  {
    var token := Get(storage, TokenKey);
    if Truthy(token) then headers[AuthorizationHeader := BearerHeader(token.value)] else headers
  }

  /** The storage after a rejection: a 401 removes the token and the saved user, anything else keeps everything. */
  function AfterRejection(storage: Storage, err: HttpError): (out: Storage)
    ensures err.status == Some(401) ==> TokenKey !in out && UserKey !in out
    ensures err.status == Some(401) ==> forall k :: k != TokenKey && k != UserKey ==> (k in out <==> k in storage)
    ensures forall k :: k in out ==> k in storage && out[k] == storage[k]
    ensures err.status != Some(401) ==> out == storage
  {
    if err.status == Some(401) then storage - {TokenKey, UserKey} else storage
  }

  /** Once a 401 has cleared storage, later requests leave without an Authorization header of their own. */
  lemma LoggedOutSendsNoToken(storage: Storage, headers: Headers)
    ensures WithAuthorization(headers, AfterRejection(storage, HttpError(Some(401)))) == headers
  {
  }

  /** An axios request config: the headers the interceptor may edit. */
  class RequestConfig {
    var headers: Headers

    constructor (headers: Headers)
      ensures this.headers == headers
    {
      this.headers := headers;
    }
  }

  /** The browser state the interceptors reach: local storage and the window's location. */
  class Browser {
    var storage: Storage
    var location: string

    constructor (storage: Storage, location: string)
      ensures this.storage == storage && this.location == location
    {
      this.storage := storage;
      this.location := location;
    }

    /** The request interceptor: edits the config's headers in place and hands the same config on. */
    method InterceptRequest(config: RequestConfig) returns (out: RequestConfig)
      modifies config
      ensures out == config
      ensures config.headers == WithAuthorization(old(config.headers), storage)
    {
      var token := Get(storage, TokenKey);
      if Truthy(token) {
        config.headers := config.headers[AuthorizationHeader := BearerHeader(token.value)];
      }
      out := config;
    }

    /** The success branch of the response interceptor: a response passes through as it came. */
    method OnFulfilled<R>(response: R) returns (out: R)
      ensures out == response
    {
      out := response;
    }

    /**
     * The error branch of the response interceptor: a 401 removes the token
     * and the saved user and sends the window to the login page; any error,
     * 401 or not, is rejected again unchanged.
     */
    method OnRejected(err: HttpError) returns (rejected: HttpError)
      modifies this
      ensures rejected == err
      ensures storage == AfterRejection(old(storage), err)
      ensures location == if err.status == Some(401) then LoginPage else old(location)
    {
      if err.status == Some(401) {
        storage := storage - {TokenKey};
        storage := storage - {UserKey};
        location := LoginPage;
      }
      rejected := err;
    }
  }
}
