/** The API client: how a response is classified as data or as an error with
    a message (`handleResponse`), and which request each endpoint wrapper
    builds.  The base URL is an opaque string; `fetch`, `response.json()`
    and `JSON.stringify` are not executed here: a request is described by a
    value and a response is given as its already-parsed body. */
module Api {
  import opened Wrappers
  import Decimal

  /** The two fields of a parsed JSON response body that the client reads.
      A missing field, `null` and `undefined` are all None. */
  datatype Body<T> = Body(data: Option<T>, message: Option<string>)

  /** A response as `fetch` delivers it: the `ok` flag (2xx status) and the body. */
  datatype Response<T> = Response(ok: bool, body: Body<T>)

  /** What `fetch` settles with: a response, or a transport failure
      (connection refused, ...) carrying its own message. */
  datatype Delivery<T> = Delivered(response: Response<T>) | NetworkFailure(message: string)

  /** Fallback message when an error response carries no usable message. */
  const RequestFailed: string := "Request failed"

  /** JavaScript truthiness of a string-or-null message: present and non-empty. */
  predicate Truthy(message: Option<string>) {
    message.Some? && message.value != ""
  }

  /** `handleResponse`: an ok response yields its `data` field as it is
      (None when absent); any other response throws an error whose message
      is the body's `message` when truthy, "Request failed" otherwise. */
  function HandleResponse<T>(response: Response<T>): (r: Result<Option<T>, string>)
    ensures r.Ok? <==> response.ok
    ensures response.ok ==> r.value == response.body.data
    ensures !response.ok && Truthy(response.body.message) ==> r.error == response.body.message.value
    ensures !response.ok && !Truthy(response.body.message) ==> r.error == RequestFailed
    ensures r.Err? ==> r.error != ""
  {
    if !response.ok then
      Err(if Truthy(response.body.message) then response.body.message.value else RequestFailed)
    else
      Ok(response.body.data)
  }

  /** An endpoint call (`getAll` or `subscribe`) once `fetch` has settled:
      transport failures propagate with their message unchanged, delivered
      responses go through `handleResponse`. */
  function Call<T>(delivery: Delivery<T>): (r: Result<Option<T>, string>)
    ensures delivery.NetworkFailure? ==> r == Err(delivery.message)
    ensures delivery.Delivered? ==> r == HandleResponse(delivery.response)
    ensures delivery.Delivered? ==> (r.Ok? <==> delivery.response.ok)
    ensures delivery.Delivered? && delivery.response.ok ==> r.value == delivery.response.body.data
  {
    match delivery
    case NetworkFailure(message) => Err(message)
    case Delivered(response) => HandleResponse(response)
  }

  datatype HttpMethod = Get | Post

  /** The JSON body `{ email }` of a subscribe request, before serialisation. */
  datatype JsonBody = EmailBody(email: string)

  datatype Request = Request(verb: HttpMethod, url: string, headers: seq<(string, string)>, body: Option<JsonBody>)

  const WebsitesRoute: string := "/api/websites"
  const SubscribeSuffix: string := "/subscribe"

  function SubscribeUrl(base: string, websiteId: int): string {
    base + WebsitesRoute + "/" + Decimal.IntToString(websiteId) + SubscribeSuffix
  }

  /** How the server side reads a subscribe URL under `base`: the text
      between `base/api/websites/` and `/subscribe` as a decimal integer. */
  function ParseSubscribeUrl(base: string, url: string): (r: Option<int>)
    ensures r.Some? ==> |url| > |base + WebsitesRoute + "/"| + |SubscribeSuffix|
  {
    var prefix := base + WebsitesRoute + "/";
    if |url| >= |prefix| + |SubscribeSuffix|
       && url[..|prefix|] == prefix
       && url[|url| - |SubscribeSuffix|..] == SubscribeSuffix
    then Decimal.ParseInt(url[|prefix|..|url| - |SubscribeSuffix|])
    else None
  }

  /** `websiteApi.getAll`: GET `base/api/websites`, accepting JSON, no body. */
  function GetAllRequest(base: string): (r: Request)
    ensures r.verb == Get && r.body.None?
    ensures r.url == base + "/api/websites"
    ensures r.headers == [("Accept", "application/json")]
  {
    Request(Get, base + WebsitesRoute, [("Accept", "application/json")], None)
  }

  /** `subscriptionApi.subscribe(websiteId, email)`: POST of the JSON body
      `{ email }` to the URL that names the website. */
  function SubscribeRequest(base: string, websiteId: int, email: string): (r: Request)
    ensures r.verb == Post
    ensures r.body == Some(EmailBody(email))
    ensures r.headers == [("Content-Type", "application/json"), ("Accept", "application/json")]
    ensures r.url == base + "/api/websites/" + Decimal.IntToString(websiteId) + "/subscribe"
    ensures ParseSubscribeUrl(base, r.url) == Some(websiteId)
  {
    var url := SubscribeUrl(base, websiteId);
    SubscribeUrlNamesWebsite(base, websiteId);
    Request(Post, url, [("Content-Type", "application/json"), ("Accept", "application/json")], Some(EmailBody(email)))
  }

  /** The website id can be read back from the subscribe URL. */
  lemma SubscribeUrlNamesWebsite(base: string, websiteId: int)
    ensures ParseSubscribeUrl(base, SubscribeUrl(base, websiteId)) == Some(websiteId)
  {
    var prefix := base + WebsitesRoute + "/";
    var id := Decimal.IntToString(websiteId);
    var url := SubscribeUrl(base, websiteId);
    assert url == prefix + id + SubscribeSuffix;
    assert url[..|prefix|] == prefix;
    assert url[|url| - |SubscribeSuffix|..] == SubscribeSuffix;
    assert url[|prefix|..|url| - |SubscribeSuffix|] == id;
    Decimal.IntToStringRoundTrip(websiteId);
  }

  /** Different websites are never posted to the same URL. */
  lemma SubscribeUrlsDistinct(base: string, id1: int, id2: int)
    requires id1 != id2
    ensures SubscribeUrl(base, id1) != SubscribeUrl(base, id2)
  {
    SubscribeUrlNamesWebsite(base, id1);
    SubscribeUrlNamesWebsite(base, id2);
  }

  /** The list endpoint is never mistaken for a subscribe endpoint. */
  lemma GetAllUrlIsNotSubscribeUrl(base: string)
    ensures ParseSubscribeUrl(base, GetAllRequest(base).url) == None
  {
  }
}
