/**
 The SoundCloud client: the access token kept in the keychain, logging in with
 the OAuth2 password grant (section 4.3.2 of RFC 6749), logging out, and signing
 every request made through `request` by putting `client_id` and, when a token
 is stored, `oauth_token` in front of its URL's query items. The token request
 itself is sent unsigned.
 */
module SoundcloudApi {
  import opened Wrappers
  import opened Http

  /** The error a login completes with when the token endpoint's answer has no token in it. */
  const InvalidServerResponse := "Invalid server response"

  /** The token endpoint the password grant is posted to. */
  const TokenEndpoint := "https://api.soundcloud.com/oauth2/token"

  /** A request sent to the token endpoint: method, URL and form parameters. */
  datatype TokenRequest = TokenRequest(httpMethod: HttpMethod, endpoint: string, parameters: map<string, string>)

  /**
   The password-grant request for the configured client and user: a POST to the
   token endpoint whose form carries exactly the grant type `password`, the user's
   credentials and the client's credentials, each under its own field name.
   */
  function PasswordGrant(clientId: string, clientSecret: string, username: string, password: string): (r: TokenRequest)
    ensures r.httpMethod == POST && r.endpoint == TokenEndpoint
    ensures r.parameters.Keys == {"grant_type", "username", "password", "client_id", "client_secret"}
    ensures r.parameters["grant_type"] == "password"
    ensures r.parameters["username"] == username && r.parameters["password"] == password
    ensures r.parameters["client_id"] == clientId && r.parameters["client_secret"] == clientSecret
  {
    TokenRequest(POST, TokenEndpoint, map[
      "grant_type" := "password",
      "username" := username,
      "password" := password,
      "client_id" := clientId,
      "client_secret" := clientSecret])
  }

  // ---------------------------------------------------------------------------
  // Handling the token endpoint's answer
  // ---------------------------------------------------------------------------

  /**
   The token in a token-endpoint body: present exactly when the body is a JSON
   object whose `access_token` member is a string, and then that string.
   */
  function AccessTokenIn(json: Json): (r: Option<string>)
    ensures r.Some? <==> json.JObject? && "access_token" in json.fields && json.fields["access_token"].JString?
    ensures r.Some? ==> json.fields["access_token"] == JString(r.value)
  {
    if json.JObject? && "access_token" in json.fields && json.fields["access_token"].JString?
    then Some(json.fields["access_token"].s)
    else None
  }

  /** How a token request ends: a token granted, or refused with a description for the user. */
  datatype TokenOutcome = Granted(token: string) | Refused(description: string)

  /**
   The outcome of one answer from the token endpoint. A token is granted exactly
   when the answer is a success whose body carries one; a failure is refused with
   its own description, and any other successful body with the fixed
   `InvalidServerResponse`.
   */
  function TokenOutcomeOf(response: JsonResult): (r: TokenOutcome)
    ensures r.Granted? <==> response.Success? && AccessTokenIn(response.json).Some?
    ensures r.Granted? ==> AccessTokenIn(response.json) == Some(r.token)
    ensures response.Failure? ==> r == Refused(response.description)
    ensures response.Success? && r.Refused? ==> r.description == InvalidServerResponse
  {
    match response
    case Success(json) =>
      if AccessTokenIn(json).Some? then Granted(AccessTokenIn(json).value) else Refused(InvalidServerResponse)
    case Failure(description) => Refused(description)
  }

  /**
   What one login leaves behind: the token stored afterwards, the error
   description the completion handler receives (`None` for success), and whether
   a request went to the token endpoint.
   */
  datatype LogInResult = LogInResult(stored: Option<string>, errorDescription: Option<string>, requested: bool)

  /**
   Logging in with `stored` in the keychain, when the token endpoint would answer
   `response`. A stored token is reused without asking the endpoint; otherwise the
   endpoint is asked once, and the store changes only when it grants a token.
   */
  function LogIn(stored: Option<string>, response: JsonResult): (r: LogInResult)
    ensures r.requested <==> stored.None?
    ensures stored.Some? ==> r.stored == stored && r.errorDescription.None?
    ensures r.errorDescription.None? <==> r.stored.Some?
    ensures r.stored != stored ==> r.requested && response.Success? && r.stored == AccessTokenIn(response.json)
    ensures r.requested ==>
      (r.errorDescription.None? <==> TokenOutcomeOf(response).Granted?) &&
      (r.errorDescription.Some? ==> r.errorDescription == Some(TokenOutcomeOf(response).description))
  {
    if stored.Some? then LogInResult(stored, None, false)
    else
      match TokenOutcomeOf(response)
      case Granted(token) => LogInResult(Some(token), None, true)
      case Refused(description) => LogInResult(stored, Some(description), true)
  }

  /** Once a login has succeeded, the next login is answered from the store and changes nothing. */
  lemma LogInAfterSuccessIsNoOp(stored: Option<string>, first: JsonResult, second: JsonResult)
    requires LogIn(stored, first).errorDescription.None?
    ensures LogIn(LogIn(stored, first).stored, second) == LogInResult(LogIn(stored, first).stored, None, false)
  {
  }

  // ---------------------------------------------------------------------------
  // Signing requests
  // ---------------------------------------------------------------------------

  /** The query items signing puts in front of a URL's own: `oauth_token` (when there is a token), then `client_id`. */
  function AuthQueryItems(clientId: string, token: Option<string>): seq<QueryItem>
  {
    (if token.Some? then [QueryItem("oauth_token", token)] else []) + [QueryItem("client_id", Some(clientId))]
  }

  /**
   The signed form of what the base encoding produced. An encoding error passes
   through with its request untouched. Otherwise the error stays absent, nothing
   but the URL's query changes, and the query becomes the authentication items
   followed by the URL's own items in their order. A missing token is not an error.
   */
  function SignedEncoding(base: Encoded, clientId: string, token: Option<string>): (r: Encoded)
    ensures base.error.Some? ==> r == base
    ensures r.error == base.error
    ensures r.request == base.request.(url := r.request.url)
    ensures r.request.url.location == base.request.url.location
    ensures r.request.url.fragment == base.request.url.fragment
    ensures base.error.None? ==>
      QueryItemsOf(r.request.url) == AuthQueryItems(clientId, token) + QueryItemsOf(base.request.url)
  {
    if base.error.Some? then base
    else
      var withClientId := WithQueryItemFirst(base.request.url, QueryItem("client_id", Some(clientId)));
      var url := if token.Some? then WithQueryItemFirst(withClientId, QueryItem("oauth_token", token)) else withClientId;
      assert QueryItemsOf(url) == AuthQueryItems(clientId, token) + QueryItemsOf(base.request.url) by {
        assert QueryItemsOf(withClientId) == [QueryItemsOf(withClientId)[0]] + QueryItemsOf(withClientId)[1..];
        if token.Some? {
          assert QueryItemsOf(url) == [QueryItemsOf(url)[0]] + QueryItemsOf(url)[1..];
        }
      }
      base.(request := base.request.(url := url))
  }

  /** A successfully encoded request always carries `client_id` with the configured value. */
  lemma SignedCarriesClientId(base: Encoded, clientId: string, token: Option<string>)
    requires base.error.None?
    ensures var items := QueryItemsOf(SignedEncoding(base, clientId, token).request.url);
      var i := IndexOfName(items, "client_id");
      i.Some? && items[i.value].value == Some(clientId)
  {
  }

  /**
   Signing finds `oauth_token` in the query exactly when a token is stored or the
   URL already had one; a stored token comes first, with the stored value.
   */
  lemma SignedCarriesTokenIffStored(base: Encoded, clientId: string, token: Option<string>)
    requires base.error.None?
    ensures var items := QueryItemsOf(SignedEncoding(base, clientId, token).request.url);
      (IndexOfName(items, "oauth_token").Some? <==>
        token.Some? || IndexOfName(QueryItemsOf(base.request.url), "oauth_token").Some?) &&
      (token.Some? ==> IndexOfName(items, "oauth_token") == Some(0) && items[0].value == token)
  {
  }

  /**
   For a URL that does not name `oauth_token` itself, the signed query holds
   `oauth_token` if and only if a token is stored, and the first item is the
   token when it is.
   */
  lemma SignedOAuthTokenIffStoredToken(base: Encoded, clientId: string, token: Option<string>)
    requires base.error.None?
    requires IndexOfName(QueryItemsOf(base.request.url), "oauth_token").None?
    ensures var items := QueryItemsOf(SignedEncoding(base, clientId, token).request.url);
      (IndexOfName(items, "oauth_token").Some? <==> token.Some?) &&
      (token.None? ==> items[0] == QueryItem("client_id", Some(clientId)))
  {
  }

  // ---------------------------------------------------------------------------
  // The client
  // ---------------------------------------------------------------------------

  /**
   The client's state: the configured credentials, the keychain entry holding the
   access token, and (for the proofs) every request sent to the token endpoint.
   */
  class SoundcloudAPI {
    const clientId: string
    const clientSecret: string
    const username: string
    const password: string

    /** The access token in the keychain; `None` when no one is logged in. */
    var accessToken: Option<string>

    /** The password-grant requests sent to the token endpoint so far, oldest first. */
    ghost var tokenRequests: seq<TokenRequest>

    /** A client over the configured credentials and whatever the keychain already holds. */
    constructor (clientId: string, clientSecret: string, username: string, password: string, keychainEntry: Option<string>)
      ensures this.clientId == clientId && this.clientSecret == clientSecret
      ensures this.username == username && this.password == password
      ensures accessToken == keychainEntry && tokenRequests == []
    {
      this.clientId := clientId;
      this.clientSecret := clientSecret;
      this.username := username;
      this.password := password;
      accessToken := keychainEntry;
      tokenRequests := [];
    }

    /** Writes the keychain entry; writing `None` deletes it. */
    method SetAccessToken(newValue: Option<string>)
      modifies this
      ensures accessToken == newValue
      ensures tokenRequests == old(tokenRequests)
    {
      accessToken := newValue;
    }

    /** Removes the access token, whatever was stored. */
    method LogOut()
      modifies this
      ensures accessToken == None
      ensures tokenRequests == old(tokenRequests)
    {
      accessToken := None;
    }

    /**
     Handles the token endpoint's answer: a granted token is stored and the
     completion gets no error; otherwise the store is left alone and the
     completion gets the refusal's description.
     */
    method HandleTokenResponse(response: JsonResult) returns (errorDescription: Option<string>)
      modifies this
      ensures match TokenOutcomeOf(response)
        case Granted(token) => accessToken == Some(token) && errorDescription.None?
        case Refused(description) => accessToken == old(accessToken) && errorDescription == Some(description)
      ensures tokenRequests == old(tokenRequests)
    {
      match response
      case Success(json) =>
        var token := AccessTokenIn(json);
        if token.Some? {
          SetAccessToken(token);
          errorDescription := None;
        } else {
          errorDescription := Some(InvalidServerResponse);
        }
      case Failure(description) =>
        errorDescription := Some(description);
    }

    /**
     Logs in, or recovers the token already in the keychain. With a token stored it
     completes at once without error and without any request. Otherwise it posts the
     password grant once and handles `response`, the endpoint's answer to it.
     */
    method LogInOrRecoverToken(response: JsonResult) returns (errorDescription: Option<string>)
      modifies this
      ensures var r := LogIn(old(accessToken), response);
        accessToken == r.stored && errorDescription == r.errorDescription &&
        tokenRequests == old(tokenRequests) +
          (if r.requested then [PasswordGrant(clientId, clientSecret, username, password)] else [])
      ensures old(accessToken).Some? ==> accessToken == old(accessToken) && tokenRequests == old(tokenRequests)
    {
      if accessToken.Some? {
        errorDescription := None;
        return;
      }
      tokenRequests := tokenRequests + [PasswordGrant(clientId, clientSecret, username, password)];
      errorDescription := HandleTokenResponse(response);
    }

    /** The URL with `item` as the first of its query items, built as the query list is rebuilt. */
    static method UrlByAddingQueryItem(item: QueryItem, url: Url) returns (r: Url)
      ensures r == WithQueryItemFirst(url, item)
    {
      var newQueryItems := [item];
      if url.queryItems.Some? {
        newQueryItems := newQueryItems + url.queryItems.value;
      }
      assert newQueryItems == [item] + QueryItemsOf(url);
      r := url.(queryItems := Some(newQueryItems));
    }

    /**
     The signing encoding over `baseEncoding`: it runs the base encoding, then adds
     `client_id` and, when a token is stored at that moment, `oauth_token`.
     */
    method AuthedEncode(baseEncoding: ParameterEncoding, request: UrlRequest, parameters: Parameters)
      returns (r: Encoded)
      ensures r == SignedEncoding(baseEncoding(request, parameters), clientId, accessToken)
    {
      var base := baseEncoding(request, parameters);
      if base.error.Some? {
        return base;
      }
      var urlRequest := base.request;
      var withClientId := UrlByAddingQueryItem(QueryItem("client_id", Some(clientId)), urlRequest.url);
      urlRequest := urlRequest.(url := withClientId);
      if accessToken.Some? {
        var withToken := UrlByAddingQueryItem(QueryItem("oauth_token", accessToken), urlRequest.url);
        urlRequest := urlRequest.(url := withToken);
      }
      r := Encoded(urlRequest, base.error);
    }

    /**
     An authenticated request: the request is built from method, URL and headers,
     the caller's parameters (an empty dictionary when there are none) go through
     `encoding`, and the result is signed.
     */
    method Request(httpMethod: HttpMethod, url: Url, parameters: Option<Parameters>,
                   encoding: ParameterEncoding, headers: Option<map<string, string>>)
      returns (r: Encoded)
      ensures var request := UrlRequest(httpMethod, url, if headers.Some? then headers.value else map[], None);
        r == SignedEncoding(encoding(request, if parameters.Some? then parameters.value else map[]), clientId, accessToken)
    {
      var request := UrlRequest(httpMethod, url, if headers.Some? then headers.value else map[], None);
      var params := if parameters.Some? then parameters.value else map[];
      r := AuthedEncode(encoding, request, params);
    }
  }
}
