/** `app/api/unsplash/route.ts`: the server-side proxy for photo searches. `GET` is a
  * function of the `city` query parameter, the configured key and how the two
  * upstream searches ended. */
module UnsplashRoute {
  import opened Wrappers
  import opened Unsplash
  import opened JsString

  datatype Body =
    | ErrorBody(error: string)
      /** `total` is `None` when either upstream total is missing (the sum is `NaN`,
        * which JSON writes as `null`). */
    | ResultsBody(results: seq<Photo>, total: Option<int>, city: string)

  datatype Reply = Reply(status: int, body: Body, headers: seq<(string, string)>)

  /** The searches the route issued, and its reply. */
  datatype Run = Run(searches: seq<PhotoSearch>, reply: Reply)

  const CacheControl: (string, string) :=
    ("Cache-Control", "public, s-maxage=3600, stale-while-revalidate=86400")

  const CityRequired: string := "City parameter is required"
  const KeyMissing: string := "Unsplash API key not configured"
  const UpstreamFailed: string := "Failed to fetch images from Unsplash"
  const NoImages: string := "No images found for this city"
  const InternalError: string := "Internal server error"

  /** The query both searches send. */
  function SearchQuery(city: string): string {
    city + " landmark iconic famous architecture monument"
  }

  function SumTotals(a: Option<int>, b: Option<int>): Option<int> {
    if a.Some? && b.Some? then Some(a.value + b.value) else None
  }

  /** `landscapeResponse.status || portraitResponse.status`, as written. */
  function FailureStatusAsWritten(landscape: Response, portrait: Response): int {
    if landscape.status != 0 then landscape.status else portrait.status
  }

  /** The status of the search that failed, the landscape one first. */
  function FailureStatus(landscape: Response, portrait: Response): int {
    if !landscape.ok then landscape.status else portrait.status
  }

  /** The early-return chain of `GET`, with the error status chosen by `failureStatus`. */
  function Respond(city: Option<string>, accessKey: Option<string>, exchange: SearchExchange,
                   failureStatus: (Response, Response) -> int): (r: Run)
    ensures r.searches == [] <==> !Present(city) || !Present(accessKey)
    ensures r.reply.body.ResultsBody? <==>
      Present(city) && Present(accessKey) && exchange.Answered? && exchange.landscape.ok && exchange.portrait.ok
      && |Merge(exchange.landscape.body, exchange.portrait.body)| > 0
    ensures r.reply.body.ResultsBody? ==> r.reply.status == 200 && r.reply.headers == [CacheControl]
    ensures r.reply.body.ErrorBody? ==> r.reply.headers == []
  {
    if !Present(city) then Run([], Reply(400, ErrorBody(CityRequired), []))
    else if !Present(accessKey) then Run([], Reply(500, ErrorBody(KeyMissing), []))
    else
      var searches := Searches(SearchQuery(city.value), accessKey.value);
      match exchange
      case Threw => Run(searches, Reply(500, ErrorBody(InternalError), []))
      case Answered(landscape, portrait) =>
        if !landscape.ok || !portrait.ok then
          Run(searches, Reply(failureStatus(landscape, portrait), ErrorBody(UpstreamFailed), []))
        else
          var all := Merge(landscape.body, portrait.body);
          if |all| == 0 then Run(searches, Reply(404, ErrorBody(NoImages), []))
          else Run(searches, Reply(200, ResultsBody(all, SumTotals(landscape.body.total, portrait.body.total), city.value),
                                   [CacheControl]))
  }

  /** `GET` exactly as written: an upstream failure goes out under the landscape
    * status unless that is 0, whichever search failed. */
  function GetAsWritten(city: Option<string>, accessKey: Option<string>, exchange: SearchExchange): (r: Run)
    ensures r.reply.body == ErrorBody(UpstreamFailed) ==>
      exchange.Answered? && (!exchange.landscape.ok || !exchange.portrait.ok)
      && r.reply.status == (if exchange.landscape.status != 0 then exchange.landscape.status
                            else exchange.portrait.status)
  {
    Respond(city, accessKey, exchange, FailureStatusAsWritten)
  }

  /** `GET` with an upstream failure reported under the failing search's status. */
  function Get(city: Option<string>, accessKey: Option<string>, exchange: SearchExchange): (r: Run)
    ensures r.reply.body == ErrorBody(UpstreamFailed) ==>
      exchange.Answered?
      && ((!exchange.landscape.ok && r.reply.status == exchange.landscape.status)
          || (exchange.landscape.ok && !exchange.portrait.ok && r.reply.status == exchange.portrait.status))
  {
    Respond(city, accessKey, exchange, FailureStatus)
  }

  /** An upstream response is well-formed when `ok` means a 2xx status. */
  predicate WellFormed(r: Response) {
    r.ok <==> 200 <= r.status < 300
  }

  // ---------------------------------------------------------------- the finding

  /** As written, a failed portrait search next to a successful landscape one is
    * reported as an error with status 200. */
  lemma PortraitFailureReportedAsOk(city: string, key: string, landscape: Response, portrait: Response)
    requires city != "" && key != ""
    requires landscape == Response(true, 200, SearchPayload(Some([]), Some(0)))
    requires portrait == Response(false, 403, SearchPayload(None, None))
    ensures GetAsWritten(Some(city), Some(key), Answered(landscape, portrait)).reply
         == Reply(200, ErrorBody(UpstreamFailed), [])
    ensures Get(Some(city), Some(key), Answered(landscape, portrait)).reply.status == 403
  {
  }

  /** With well-formed upstream responses, an upstream failure is never reported
    * under a success status. */
  lemma UpstreamFailureStatusIsError(city: Option<string>, key: Option<string>, landscape: Response, portrait: Response)
    requires Present(city) && Present(key)
    requires WellFormed(landscape) && WellFormed(portrait)
    requires !landscape.ok || !portrait.ok
    ensures var reply := Get(city, key, Answered(landscape, portrait)).reply;
      reply.body == ErrorBody(UpstreamFailed) && !(200 <= reply.status < 300)
  {
  }

  /** The two versions answer alike unless a search failed while the landscape one
    * succeeded or carried status 0. */
  lemma GetAgreesWithAsWritten(city: Option<string>, key: Option<string>, exchange: SearchExchange)
    requires exchange.Answered? && !(exchange.landscape.ok && exchange.portrait.ok) ==>
      !exchange.landscape.ok && exchange.landscape.status != 0
    ensures Get(city, key, exchange) == GetAsWritten(city, key, exchange)
  {
  }

  // ---------------------------------------------------------------- the decision chain

  /** Validation comes first and issues no search: no city gives 400 whatever the
    * key; a city without a key gives 500. */
  lemma ValidationFirst(city: Option<string>, key: Option<string>, exchange: SearchExchange)
    ensures !Present(city) ==> Get(city, key, exchange) == Run([], Reply(400, ErrorBody(CityRequired), []))
    ensures Present(city) && !Present(key) ==>
      Get(city, key, exchange) == Run([], Reply(500, ErrorBody(KeyMissing), []))
    ensures Present(city) && Present(key) ==>
      Get(city, key, exchange).searches == Searches(SearchQuery(city.value), key.value)
  {
  }

  /** Any throw becomes 500 "Internal server error". */
  lemma ThrowIsInternalError(city: Option<string>, key: Option<string>)
    requires Present(city) && Present(key)
    ensures Get(city, key, Threw).reply == Reply(500, ErrorBody(InternalError), [])
  {
  }

  /** With both searches ok: 404 when they found nothing together, otherwise 200 with
    * the landscape results followed by the portrait ones, the summed totals, the
    * city echoed and the cache header. */
  lemma BothOk(city: Option<string>, key: Option<string>, landscape: Response, portrait: Response)
    requires Present(city) && Present(key) && landscape.ok && portrait.ok
    ensures var reply := Get(city, key, Answered(landscape, portrait)).reply;
      var l := landscape.body.results.GetOr([]); var p := portrait.body.results.GetOr([]);
      (if |l| + |p| == 0 then
         reply == Reply(404, ErrorBody(NoImages), [])
       else
         reply.status == 200 && reply.headers == [CacheControl]
         && reply.body.ResultsBody? && reply.body.results == l + p && reply.body.city == city.value
         && (landscape.body.total.Some? && portrait.body.total.Some? ==>
               reply.body.total == Some(landscape.body.total.value + portrait.body.total.value))
         && (landscape.body.total.None? || portrait.body.total.None? ==> reply.body.total == None))
  {
  }

  /** With well-formed upstream responses, a 200 reply always carries at least one
    * photo, each from one of the two searches. */
  lemma SuccessCarriesPhotos(city: Option<string>, key: Option<string>, exchange: SearchExchange)
    requires exchange.Answered? ==> WellFormed(exchange.landscape) && WellFormed(exchange.portrait)
    requires Get(city, key, exchange).reply.status == 200
    ensures exchange.Answered?
    ensures var body := Get(city, key, exchange).reply.body;
      body.ResultsBody? && |body.results| > 0
      && forall ph :: ph in body.results ==>
           ph in exchange.landscape.body.results.GetOr([]) || ph in exchange.portrait.body.results.GetOr([])
  {
    if exchange.Answered? && exchange.landscape.ok && exchange.portrait.ok {
      var body := Get(city, key, exchange).reply.body;
      var l := exchange.landscape.body.results.GetOr([]);
      var p := exchange.portrait.body.results.GetOr([]);
      forall ph | ph in body.results
        ensures ph in l || ph in p
      {
        assert body.results == l + p;
      }
    }
  }

  /** The route as written keeps the same promise only when the portrait search
    * does not fail beside a successful landscape one and the landscape status is
    * not 0. */
  lemma SuccessCarriesPhotosAsWritten(city: Option<string>, key: Option<string>, exchange: SearchExchange)
    requires exchange.Answered? ==>
      WellFormed(exchange.landscape) && WellFormed(exchange.portrait)
      && (exchange.portrait.ok || !exchange.landscape.ok) && exchange.landscape.status != 0
    requires GetAsWritten(city, key, exchange).reply.status == 200
    ensures exchange.Answered?
    ensures var body := GetAsWritten(city, key, exchange).reply.body;
      body.ResultsBody? && |body.results| > 0
      && forall ph :: ph in body.results ==>
           ph in exchange.landscape.body.results.GetOr([]) || ph in exchange.portrait.body.results.GetOr([])
  {
    GetAgreesWithAsWritten(city, key, exchange);
    SuccessCarriesPhotos(city, key, exchange);
  }
}
