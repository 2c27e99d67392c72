/**
 The values of the HTTP layer the client works on: URLs taken apart into their
 components, URL requests, JSON bodies, and the outcome of a parameter encoding.
 They stand for Foundation's `NSURL`/`NSURLComponents`/`NSURLQueryItem`, and for
 the request, parameter and result types of the HTTP library.
 */
module Http {
  import opened Wrappers

  /** One item of a URL's query string: `name=value`, or just `name` when it has no value. */
  datatype QueryItem = QueryItem(name: string, value: Option<string>)

  /**
   A URL as its components. Everything before the query (scheme, host, path) is
   kept as one opaque `location`; `queryItems` is `None` when the URL has no query
   at all, as `NSURLComponents.queryItems` is `nil` then.
   */
  datatype Url = Url(location: string, queryItems: Option<seq<QueryItem>>, fragment: Option<string>)

  /** The URL's query items, in order; a URL without a query has none. */
  function QueryItemsOf(url: Url): seq<QueryItem>
  {
    if url.queryItems.Some? then url.queryItems.value else []
  }

  /**
   The URL with `item` put in front of its query items. Every earlier item stays,
   in its order, behind the new one; scheme, host, path and fragment are untouched.
   */
  function WithQueryItemFirst(url: Url, item: QueryItem): (r: Url)
    ensures r.location == url.location && r.fragment == url.fragment
    ensures r.queryItems.Some?
    ensures |QueryItemsOf(r)| == |QueryItemsOf(url)| + 1
    ensures QueryItemsOf(r)[0] == item
    ensures QueryItemsOf(r)[1..] == QueryItemsOf(url)
  {
    url.(queryItems := Some([item] + QueryItemsOf(url)))
  }

  /** The position of the first query item named `name`, or `None` when no item has that name. */
  function IndexOfName(items: seq<QueryItem>, name: string): (r: Option<nat>)
    ensures r.Some? ==> r.value < |items| && items[r.value].name == name
    ensures r.Some? ==> forall j :: 0 <= j < r.value ==> items[j].name != name
    ensures r.None? ==> forall j :: 0 <= j < |items| ==> items[j].name != name
  {
    if items == [] then None
    else if items[0].name == name then Some(0)
    else
      match IndexOfName(items[1..], name)
      case None => None
      case Some(i) => Some(i + 1)
  }

  /** Putting an item in front either makes it the first match or shifts the old match by one. */
  lemma IndexOfNameAfterPrepend(item: QueryItem, items: seq<QueryItem>, name: string)
    ensures IndexOfName([item] + items, name) ==
      if item.name == name then Some(0)
      else if IndexOfName(items, name).None? then None
      else Some(IndexOfName(items, name).value + 1)
  {
  }

  /** The HTTP methods a request can carry. */
  datatype HttpMethod = OPTIONS | GET | HEAD | POST | PUT | PATCH | DELETE | TRACE | CONNECT

  /** A URL request as the encoders see it: method, URL, header fields and an optional body. */
  datatype UrlRequest = UrlRequest(
    httpMethod: HttpMethod,
    url: Url,
    headers: map<string, string>,
    body: Option<string>)

  /** A JSON value as the HTTP library's JSON serializer delivers it. */
  datatype Json =
    | JNull
    | JBool(b: bool)
    | JNumber(literal: string)
    | JString(s: string)
    | JArray(elements: seq<Json>)
    | JObject(fields: map<string, Json>)

  /** The parameters a caller hands to a request. */
  type Parameters = map<string, Json>

  /**
   What a parameter encoding returns: the encoded request, and the error that
   stopped the encoding if there was one. The request is returned in both cases.
   */
  datatype Encoded = Encoded(request: UrlRequest, error: Option<string>)

  /** A parameter encoding: it folds the parameters into the request. */
  type ParameterEncoding = (UrlRequest, Parameters) -> Encoded

  /**
   The result of a validated request whose body was read as JSON: the parsed body,
   or the failure (transport error, unacceptable status, unparsable body) by its
   human-readable description.
   */
  datatype JsonResult = Success(json: Json) | Failure(description: string)
}
