# SoundCloud client: token store, login and query-string signing

This project models the `SoundcloudAPI` type of a small iOS sample app that logs
in to SoundCloud. The type keeps one access token in the keychain. It logs in
with the OAuth2 password grant (section 4.3.2 of RFC 6749). When a token is
already stored, it reuses that token and sends nothing. It logs out by deleting
the token. Every request made through its `request` method is signed: the
URL's query string gets `client_id` and, when a token is stored, `oauth_token`,
for POSTs too, unless the base encoding reports an error. The token request itself is sent directly and is not signed.

Files:

- `wrappers.dfy`: `Option`, standing for Swift's optionals.
- `http.dfy`: the HTTP-layer values the client handles. A URL is an opaque
  location, an optional ordered list of query items and a fragment. The module
  also has the URL request, JSON bodies, and what a parameter encoding returns
  (the request together with an optional error). `WithQueryItemFirst` and
  `IndexOfName` give the meaning of "add a query item" and "find a query
  parameter".
- `soundcloud_api.dfy`: specification functions, lemmas and the class.
  - `LogIn` specifies login and `SignedEncoding` specifies the signing encoder.
    `TokenOutcomeOf` and `AccessTokenIn` specify how the answer of the token
    endpoint is judged. `PasswordGrant` is the token request that is sent, and
    `AuthQueryItems` the query items that signing adds.
  - Lemmas prove what these promise.
  - The class `SoundcloudAPI` holds the keychain entry as the field
    `accessToken`. A ghost field records every request sent to the token
    endpoint. The class methods are proved against the specification functions.

The static members of the Swift type become members of one `SoundcloudAPI`
object. Its constructor receives the configured credentials and what the
keychain already holds. The HTTP library's base encoding is a function-typed
parameter. The token endpoint's answer is a parameter of the login method.

The doc comment of `request` (SoundcloudTestApp/SoundcloudAPI.swift:102) says
it always appends `oauth_token` and `client_id` to the query. The code instead
puts them in front of the existing items (lines 156-162). It adds `oauth_token`
only when a token is stored (lines 139-148), and it keeps any `oauth_token` the
URL already had. This model follows the code. `SignedCarriesTokenIffStored`
states the general rule. `SignedOAuthTokenIffStoredToken` states the exact
if-and-only-if for URLs that carry no `oauth_token` of their own.

## Model

| member | source | states |
|---|---|---|
| `Http.WithQueryItemFirst` | SoundcloudTestApp/SoundcloudAPI.swift:153-165 | adding a query item gives a URL whose first query item is the new item and whose remaining items are exactly the old ones, in order (none when the URL had no query); scheme, host, path and fragment are unchanged |
| `Http.IndexOfNameAfterPrepend` | SoundcloudTestApp/SoundcloudAPI.swift:156-160 | after an item is put in front, a parameter of the same name is found at position 0; any other name is found one position later than before, or not at all |
| `SoundcloudApi.PasswordGrant` | SoundcloudTestApp/SoundcloudAPI.swift:65-73 | the token request is a POST to `https://api.soundcloud.com/oauth2/token` whose form has exactly the fields `grant_type` (`password`), `username`, `password`, `client_id` and `client_secret`, each with the configured value |
| `SoundcloudApi.AccessTokenIn` | SoundcloudTestApp/SoundcloudAPI.swift:78-79 | a body yields a token exactly when it is a JSON object whose `access_token` member is a string, and the token is that string |
| `SoundcloudApi.TokenOutcomeOf` | SoundcloudTestApp/SoundcloudAPI.swift:76-94 | a token is granted iff the answer is a success carrying one; a failure is refused with its own description; any other success body is refused with "Invalid server response" |
| `SoundcloudApi.LogIn` | SoundcloudTestApp/SoundcloudAPI.swift:54-95 | the token endpoint is asked iff no token is stored; a stored token is kept and the login succeeds; the completion reports no error iff a token is stored afterwards; the store changes only to the token a successful answer carries |
| `SoundcloudApi.LogInAfterSuccessIsNoOp` | SoundcloudTestApp/SoundcloudAPI.swift:55-63 | after a successful login, the next login sends no request, keeps the token and reports no error, whatever the endpoint would answer |
| `SoundcloudApi.SignedEncoding` | SoundcloudTestApp/SoundcloudAPI.swift:129-150 | an error from the base encoding passes through with its request unchanged. Otherwise the error stays absent and only the URL's query changes. The query becomes `[oauth_token, client_id]` (when a token is stored) or `[client_id]`, followed by the original items in order. A missing token is not an error |
| `SoundcloudApi.SignedCarriesClientId` | SoundcloudTestApp/SoundcloudAPI.swift:136-137 | a successfully encoded request always carries `client_id`, and the first `client_id` found has the configured client id |
| `SoundcloudApi.SignedCarriesTokenIffStored` | SoundcloudTestApp/SoundcloudAPI.swift:139-148 | the signed query has `oauth_token` iff a token is stored or the URL already had one; a stored token is the first item, with the stored value |
| `SoundcloudApi.SignedOAuthTokenIffStoredToken` | SoundcloudTestApp/SoundcloudAPI.swift:136-148 | for a URL without its own `oauth_token`, the signed query has `oauth_token` iff a token is stored; with no token, `client_id` comes first |
| `SoundcloudApi.SoundcloudAPI.constructor` | SoundcloudTestApp/SoundcloudAPI.swift:15-18 | the client starts with the configured credentials and whatever the keychain already holds, with no token request sent |
| `SoundcloudApi.SoundcloudAPI.SetAccessToken` | SoundcloudTestApp/SoundcloudAPI.swift:24-32 | writing the token property stores exactly the new value (`nil` deletes it) and sends nothing |
| `SoundcloudApi.SoundcloudAPI.LogOut` | SoundcloudTestApp/SoundcloudAPI.swift:38-46 | after logging out no token is stored, whatever was stored before |
| `SoundcloudApi.SoundcloudAPI.HandleTokenResponse` | SoundcloudTestApp/SoundcloudAPI.swift:75-95 | a granted token is stored and the completion gets no error; a refusal leaves the store unchanged and the completion gets the refusal's description |
| `SoundcloudApi.SoundcloudAPI.LogInOrRecoverToken` | SoundcloudTestApp/SoundcloudAPI.swift:54-96 | the new token and the completion's error are those of `LogIn`. The password-grant POST (`grant_type=password`, username, password, client id and secret, to the token endpoint) is recorded exactly when no token was stored. With a token stored, nothing changes and no request is recorded |
| `SoundcloudApi.SoundcloudAPI.UrlByAddingQueryItem` | SoundcloudTestApp/SoundcloudAPI.swift:153-165 | rebuilding the query list as `[item]` followed by the existing items yields `WithQueryItemFirst` |
| `SoundcloudApi.SoundcloudAPI.AuthedEncode` | SoundcloudTestApp/SoundcloudAPI.swift:127-151 | the signing encoder returns `SignedEncoding` of the base encoding's result, with the client id and the token stored at the moment it runs |
| `SoundcloudApi.SoundcloudAPI.Request` | SoundcloudTestApp/SoundcloudAPI.swift:106-121 | the base encoding receives the caller's parameters unchanged, or an empty dictionary when there are none. What is sent is the signed result |

## Left out

- Networking by the HTTP library (building, validating and sending requests, and JSON parsing) is foreign code. The endpoint's answer is a parameter: a parsed JSON body or a failure with its description. `.validate()`'s status check is therefore part of that parameter.
- The wording of the library's and Foundation's error descriptions is opaque text.
- `SoundcloudApi.SoundcloudAPI.Request`: what the HTTP library's manager then does with the encoder's error is not modelled. The method returns the whole encoding outcome. The default `.URL` encoding is not modelled either, since the caller passes the base encoding.
- The keychain's persistence is not modelled: the store is one in-memory optional string. The service and key names are not part of the model.
- `SoundcloudApi.SoundcloudAPI.LogOut`: a failed keychain removal is only logged by the source, so it is not modelled. The model's removal always succeeds.
- URL parsing, percent-encoding and reassembly by `NSURLComponents` are not modelled. The part of the URL before the query is opaque and preserved.
- The force-unwraps (`!`) on URLs are not modelled: every URL is assumed well formed.
- `SoundcloudApi.SoundcloudAPI.LogInOrRecoverToken`: sending the POST and handling its answer are one step in the model. In the source the method returns once the POST is sent, and the answer is handled later. Nothing that runs in between is modelled: a `logOut`, a token write or a second login. In the source, a logout made before the answer arrives is overwritten when the answer stores its token. A second login made before the answer sends a second POST.
- Dispatching the completion handler on the main queue is not modelled. Concurrent logins racing on the token are not modelled either.
- Diagnostic `print` output, including the "no accessToken" warning when signing without a token, is not modelled.
- Parameters of type `[String: AnyObject]` are modelled as a map from names to JSON values.
- The secrets file holding the client id, secret, username and password is not part of this model. These values are constructor arguments.
- SoundcloudTestApp/ViewController.swift is UI glue without logic of its own beyond calling this API, so it is not part of this model.
