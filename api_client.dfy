/** The HTTP client's two interceptors: the request rule that sets or
    withholds the bearer header, and the response rule that ends the session
    on 401. */
module ApiClient {
  import opened Js
  import opened Models
  import opened AuthContext

  const NoAuthHeader: string := "x-no-auth"
  const AuthorizationHeader: string := "Authorization"
  const LoginPath: string := "/login"

  /** The request asks to be sent without credentials: its `x-no-auth`
      header is set to a truthy value. */
  predicate OptedOut(headers: map<string, string>)
  {
    NoAuthHeader in headers && headers[NoAuthHeader] != ""
  }

  /** The headers the request interceptor sends, given the ones the request
      was made with and the session token the client was built with. */
  function InterceptedHeaders(headers: map<string, string>, token: Option<string>): (r: map<string, string>)
    // opting out drops the marker and adds no credentials
    ensures OptedOut(headers) ==> NoAuthHeader !in r
    ensures OptedOut(headers) ==>
              (AuthorizationHeader in r <==> AuthorizationHeader in headers)
              && (AuthorizationHeader in r ==> r[AuthorizationHeader] == headers[AuthorizationHeader])
    // otherwise a truthy token becomes the bearer credentials
    ensures !OptedOut(headers) && Present(token) ==>
              AuthorizationHeader in r && r[AuthorizationHeader] == "Bearer " + token.value
    ensures !OptedOut(headers) && !Present(token) ==> r == headers
    // no other header is touched
    ensures forall k :: k != NoAuthHeader && k != AuthorizationHeader ==>
              (k in r <==> k in headers) && (k in r ==> r[k] == headers[k])
    ensures !OptedOut(headers) ==>
              (NoAuthHeader in r <==> NoAuthHeader in headers)
              && (NoAuthHeader in r ==> r[NoAuthHeader] == headers[NoAuthHeader])
  {
    if OptedOut(headers) then headers - {NoAuthHeader}
    else if Present(token) then headers[AuthorizationHeader := "Bearer " + token.value]
    else headers
  }

  /** The request config object the interceptor edits in place. */
  class RequestConfig {
    var headers: map<string, string>

    constructor (initial: map<string, string>)
      ensures headers == initial
    {
      headers := initial;
    }
  }

  /** The request interceptor: deletes the opt-out marker, or assigns the
      bearer header, on the config it is handed. */
  method InterceptRequest(config: RequestConfig, token: Option<string>)
    modifies config
    ensures config.headers == InterceptedHeaders(old(config.headers), token)
  {
    if NoAuthHeader in config.headers && config.headers[NoAuthHeader] != "" {
      config.headers := config.headers - {NoAuthHeader};
      return;
    }
    if token.Some? && token.value != "" {
      config.headers := config.headers[AuthorizationHeader := "Bearer " + token.value];
    }
  }

  /** The response interceptor. Whatever arrives is passed on as it came
      (a success resolves, an error is rejected again, nothing is retried);
      a 401 additionally logs the session out and sends the browser to the
      login page, which is the returned navigation. */
  method InterceptResponse<T>(session: AuthProvider, response: ApiResult<T>)
    returns (passed: ApiResult<T>, navigate: Option<string>)
    modifies session
    ensures passed == response
    ensures response.Err? && response.status == Some(401) ==>
              navigate == Some(LoginPath)
              && session.storage == old(session.storage) - {TokenKey}
              && session.token == None && session.user == None
    ensures !(response.Err? && response.status == Some(401)) ==>
              navigate == None
              && session.storage == old(session.storage)
              && session.token == old(session.token) && session.user == old(session.user)
  {
    passed := response;
    navigate := None;
    if response.Err? && response.status == Some(401) {
      session.Logout();
      navigate := Some(LoginPath);
    }
  }
}
