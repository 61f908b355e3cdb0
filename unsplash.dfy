/** The photo-search provider as both the proxy route and the photo card see it:
  * its photo record, the two orientation searches, and how an exchange ended. */
module Unsplash {
  import opened Wrappers

  datatype Urls = Urls(regular: string, small: string, full: string)

  datatype User = User(name: string, username: string, profileLink: string)

  /** A search hit. `likes`, `width` and `height` may be missing. */
  datatype Photo = Photo(
    id: string,
    urls: Urls,
    user: User,
    link: string,
    description: Option<string>,
    altDescription: Option<string>,
    likes: Option<int>,
    width: Option<int>,
    height: Option<int>)

  datatype Orientation = Landscape | Portrait

  /** One `search/photos` request: its query, orientation, page size, ordering and
    * the access key sent in the `Authorization` header. */
  datatype PhotoSearch = PhotoSearch(
    query: string, orientation: Orientation, perPage: nat, orderBy: string, accessKey: string)

  const PerPage: nat := 30

  /** The landscape search and the portrait search, issued together. */
  function Searches(query: string, accessKey: string): (r: seq<PhotoSearch>)
    ensures |r| == 2 && r[0].orientation == Landscape && r[1].orientation == Portrait
    ensures forall k :: 0 <= k < 2 ==>
      r[k].query == query && r[k].perPage == 30 && r[k].orderBy == "relevant" && r[k].accessKey == accessKey
  {
    [PhotoSearch(query, Landscape, PerPage, "relevant", accessKey),
     PhotoSearch(query, Portrait, PerPage, "relevant", accessKey)]
  }

  /** A decoded search body; either field may be absent. */
  datatype SearchPayload = SearchPayload(results: Option<seq<Photo>>, total: Option<int>)

  /** One answered search: whether its status was ok, the status, and the body
    * (decoded only when both searches were ok). */
  datatype Response = Response(ok: bool, status: int, body: SearchPayload)

  /** How the pair of searches ended: something threw (a rejected `fetch`, a body
    * that failed to decode), or both answered. */
  datatype SearchExchange = Threw | Answered(landscape: Response, portrait: Response)

  /** `[...(landscape.results || []), ...(portrait.results || [])]`. */
  function Merge(landscape: SearchPayload, portrait: SearchPayload): (all: seq<Photo>)
    ensures |all| == |landscape.results.GetOr([])| + |portrait.results.GetOr([])|
    ensures all[..|landscape.results.GetOr([])|] == landscape.results.GetOr([])
    ensures all[|landscape.results.GetOr([])|..] == portrait.results.GetOr([])
  {
    landscape.results.GetOr([]) + portrait.results.GetOr([])
  }
}
