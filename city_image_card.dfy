/** `components/CityImageCard.tsx`: ranking search hits for the most iconic photo of
  * a city, and the card's fetch state (`imageData`, `isLoading`, `error`). */
module CityImageCard {
  import opened Wrappers
  import opened JsMath
  import opened JsString
  import opened Unsplash

  // ---------------------------------------------------------------- scoring policy

  const IconicKeywords: seq<string> := [
    "landmark", "skyline", "tower", "bridge", "cathedral", "famous",
    "downtown", "harbor", "temple", "beach", "castle", "monument",
    "architecture", "cityscape", "panorama", "aerial", "view",
    "iconic", "historic", "palace", "square", "plaza"]

  const AvoidKeywords: seq<string> := [
    "interior", "indoor", "room", "office", "restaurant", "cafe",
    "food", "person", "people", "close-up", "closeup", "abstract"]

  const CityWeight: real := 60.0
  const IconicWeight: real := 15.0
  const AvoidWeight: real := 40.0

  /** A number JavaScript treats as true: present and not 0. */
  predicate Truthy(n: Option<int>) {
    n.Some? && n.value != 0
  }

  /** `((description || '') + ' ' + (alt_description || '')).toLowerCase()`. */
  function DescriptionText(photo: Photo): string {
    Lower(photo.description.GetOr("") + " " + photo.altDescription.GetOr(""))
  }

  /** How many of `keywords` occur in `text`; each counts once however often it occurs. */
  function CountMatches(text: string, keywords: seq<string>): (n: nat)
    ensures n <= |keywords|
  {
    if keywords == [] then 0
    else CountMatches(text, keywords[..|keywords| - 1])
         + (if Contains(text, keywords[|keywords| - 1]) then 1 else 0)
  }

  /** +60 exactly when the lower-cased text includes the lower-cased city name, and
    * nothing otherwise; an empty city name is included in every text. */
  function CityBonus(photo: Photo, cityName: string): (r: real)
    ensures r == 60.0 <==> Contains(DescriptionText(photo), Lower(cityName))
    ensures r == 0.0 <==> !Contains(DescriptionText(photo), Lower(cityName))
    ensures cityName == "" ==> r == 60.0
  {
    ContainsEmpty(DescriptionText(photo));
    if Contains(DescriptionText(photo), Lower(cityName)) then CityWeight else 0.0
  }

  /** Each keyword adds or removes its weight once at most: the keyword term lies
    * between -40 per avoid word and +15 per iconic word. */
  function KeywordScore(photo: Photo): (r: real)
    ensures -480.0 <= r <= 330.0
  {
    var i := CountMatches(DescriptionText(photo), IconicKeywords);
    var a := CountMatches(DescriptionText(photo), AvoidKeywords);
    assert i <= 22 && a <= 12;
    IconicWeight * i as real - AvoidWeight * a as real
  }

  /** The tiers: nothing up to 100 likes or without likes, then 50, 80 and 100. */
  function LikesTier(likes: Option<int>): (r: real)
    ensures !Truthy(likes) || likes.value <= 100 ==> r == 0.0
    ensures Truthy(likes) && 100 < likes.value <= 500 ==> r == 50.0
    ensures Truthy(likes) && 500 < likes.value <= 1000 ==> r == 80.0
    ensures Truthy(likes) && likes.value > 1000 ==> r == 100.0
  {
    if Truthy(likes) && likes.value > 100 then
      50.0 + (if likes.value > 500 then 30.0 else 0.0) + (if likes.value > 1000 then 20.0 else 0.0)
    else 0.0
  }

  /** `Math.min(photo.likes ? photo.likes / 50 : 0, 30)`: never above 30, 0 without
    * likes, and likes / 50 below 1500 likes. */
  function LikesShare(likes: Option<int>): (r: real)
    ensures r <= 30.0
    ensures !Truthy(likes) ==> r == 0.0
    ensures Truthy(likes) && 0 <= likes.value <= 1500 ==> r == likes.value as real / 50.0
    ensures Truthy(likes) && likes.value >= 1500 ==> r == 30.0
  {
    Min(if Truthy(likes) then likes.value as real / 50.0 else 0.0, 30.0)
  }

  /** The resolution term lies in [-60, 30]; a missing or zero dimension adds nothing. */
  function ResolutionScore(width: Option<int>, height: Option<int>): (r: real)
    ensures -60.0 <= r <= 30.0
    ensures !Truthy(width) && !Truthy(height) ==> r == 0.0
  {
    (if Truthy(width) && width.value > 3000 then 15.0 else 0.0)
    + (if Truthy(height) && height.value > 3000 then 15.0 else 0.0)
    - (if Truthy(width) && width.value < 1920 then 30.0 else 0.0)
    - (if Truthy(height) && height.value < 1080 then 30.0 else 0.0)
  }

  /** The weighted sum `selectBestImage` gives a photo. No photo scores above 550;
    * one whose likes are not negative scores at least -540. */
  function Score(photo: Photo, cityName: string): (r: real)
    ensures r <= 550.0
    ensures photo.likes.None? || photo.likes.value >= 0 ==> r >= -540.0
  {
    CityBonus(photo, cityName) + KeywordScore(photo) + LikesTier(photo.likes) + LikesShare(photo.likes)
    + ResolutionScore(photo.width, photo.height)
  }

  function Scores(photos: seq<Photo>, cityName: string): (s: seq<real>)
    ensures |s| == |photos|
    ensures forall i :: 0 <= i < |photos| ==> s[i] == Score(photos[i], cityName)
  {
    seq(|photos|, i requires 0 <= i < |photos| => Score(photos[i], cityName))
  }

  // ---------------------------------------------------------------- properties of the score

  /** The keyword term depends only on which keywords occur, not how often: two
    * texts that include the same keywords score the same. */
  lemma {:induction false} CountMatchesPresenceOnly(t1: string, t2: string, keywords: seq<string>)
    requires forall k :: 0 <= k < |keywords| ==> (Contains(t1, keywords[k]) <==> Contains(t2, keywords[k]))
    ensures CountMatches(t1, keywords) == CountMatches(t2, keywords)
  {
    if keywords != [] {
      CountMatchesPresenceOnly(t1, t2, keywords[..|keywords| - 1]);
    }
  }

  /** The count is the number of distinct keyword positions whose word occurs. */
  lemma {:induction false} CountMatchesCountsPresent(text: string, keywords: seq<string>)
    ensures CountMatches(text, keywords) == |set k | 0 <= k < |keywords| && Contains(text, keywords[k])|
  {
    if keywords != [] {
      var n := |keywords| - 1;
      CountMatchesCountsPresent(text, keywords[..n]);
      var before := set k | 0 <= k < n && Contains(text, keywords[..n][k]);
      var now := set k | 0 <= k < |keywords| && Contains(text, keywords[k]);
      assert before == set k | 0 <= k < n && Contains(text, keywords[k]);
      if Contains(text, keywords[n]) {
        assert now == before + {n};
      } else {
        assert now == before;
      }
    }
  }

  // ---------------------------------------------------------------- scoring, as the source computes it

  /** The scoring callback of `photos.map`: an accumulator updated by one pass over
    * each keyword list and a chain of conditional adjustments. */
  method ScorePhoto(photo: Photo, cityName: string) returns (score: real)
    ensures score == Score(photo, cityName)
  {
    score := 0.0;
    var description := DescriptionText(photo);
    if Contains(description, Lower(cityName)) {
      score := score + CityWeight;
    }
    for k := 0 to |IconicKeywords|
      invariant score == CityBonus(photo, cityName)
                         + IconicWeight * CountMatches(description, IconicKeywords[..k]) as real
    {
      assert IconicKeywords[..k + 1][..k] == IconicKeywords[..k];
      if Contains(description, IconicKeywords[k]) {
        score := score + IconicWeight;
      }
    }
    assert IconicKeywords[..|IconicKeywords|] == IconicKeywords;
    var base := score;
    for k := 0 to |AvoidKeywords|
      invariant score == base - AvoidWeight * CountMatches(description, AvoidKeywords[..k]) as real
    {
      assert AvoidKeywords[..k + 1][..k] == AvoidKeywords[..k];
      if Contains(description, AvoidKeywords[k]) {
        score := score - AvoidWeight;
      }
    }
    assert AvoidKeywords[..|AvoidKeywords|] == AvoidKeywords;

    if Truthy(photo.likes) && photo.likes.value > 100 {
      score := score + 50.0;
      if photo.likes.value > 500 { score := score + 30.0; }
      if photo.likes.value > 1000 { score := score + 20.0; }
    }
    score := score + Min(if Truthy(photo.likes) then photo.likes.value as real / 50.0 else 0.0, 30.0);

    if Truthy(photo.width) && photo.width.value > 3000 { score := score + 15.0; }
    if Truthy(photo.height) && photo.height.value > 3000 { score := score + 15.0; }
    if Truthy(photo.width) && photo.width.value < 1920 { score := score - 30.0; }
    if Truthy(photo.height) && photo.height.value < 1080 { score := score - 30.0; }
  }

  // ---------------------------------------------------------------- ranking

  /** The first position holding the greatest score. */
  function FirstMaxIndex(s: seq<real>): (k: nat)
    requires |s| > 0
    ensures k < |s|
    ensures forall j :: 0 <= j < |s| ==> s[j] <= s[k]
    ensures forall j :: 0 <= j < k ==> s[j] < s[k]
  {
    if |s| == 1 then 0
    else
      var k' := FirstMaxIndex(s[..|s| - 1]);
      assert forall j :: 0 <= j < |s| - 1 ==> s[..|s| - 1][j] == s[j];
      if s[|s| - 1] > s[k'] then |s| - 1 else k'
  }

  /** Maximal and ahead of every equal score: the two properties pin the position down. */
  lemma FirstMaxIndexUnique(s: seq<real>, k: nat)
    requires k < |s|
    requires forall j :: 0 <= j < |s| ==> s[j] <= s[k]
    requires forall j :: 0 <= j < k ==> s[j] < s[k]
    ensures k == FirstMaxIndex(s)
  {
  }

  /** A photo with its score and its position in the input. */
  datatype Scored = Scored(photo: Photo, score: real, pos: nat)

  /** The order `sort((a, b) => b.score - a.score)` leaves, the sort being stable:
    * higher scores first, equal scores in input order. */
  predicate Precedes(x: Scored, y: Scored) {
    x.score > y.score || (x.score == y.score && x.pos < y.pos)
  }

  /** Exchanges two neighbouring entries. */
  method SwapAdjacent(a: array<Scored>, j: nat)
    requires 0 < j < a.Length
    modifies a
    ensures a[j - 1] == old(a[j]) && a[j] == old(a[j - 1])
    ensures forall k :: 0 <= k < a.Length && k != j - 1 && k != j ==> a[k] == old(a[k])
    ensures multiset(a[..]) == multiset(old(a[..]))
  {
    a[j - 1], a[j] := a[j], a[j - 1];
  }

  /** Moves `a[i]` left past every entry with a strictly lower score, so that
    * `a[..i + 1]` is ordered. It stops at an equal score, which keeps the sort stable. */
  method InsertIntoSorted(a: array<Scored>, i: nat)
    requires i < a.Length
    requires forall m, n :: 0 <= m < n < i ==> Precedes(a[m], a[n])
    requires forall k :: 0 <= k < i ==> a[k].pos < i
    requires a[i].pos == i
    modifies a
    ensures forall m, n :: 0 <= m < n <= i ==> Precedes(a[m], a[n])
    ensures forall k :: 0 <= k <= i ==> a[k].pos <= i
    ensures forall k :: i < k < a.Length ==> a[k] == old(a[k])
    ensures multiset(a[..]) == multiset(old(a[..]))
  {
    var j := i;
    while j > 0 && a[j].score > a[j - 1].score
      invariant 0 <= j <= i
      invariant a[j].pos == i
      invariant forall m, n :: 0 <= m < n <= i && m != j && n != j ==> Precedes(a[m], a[n])
      invariant forall n :: j < n <= i ==> Precedes(a[j], a[n])
      invariant forall k :: 0 <= k <= i && k != j ==> a[k].pos < i
      invariant forall k :: i < k < a.Length ==> a[k] == old(a[k])
      invariant multiset(a[..]) == multiset(old(a[..]))
    {
      SwapAdjacent(a, j);
      j := j - 1;
    }
  }

  /** `Array.prototype.sort` with the comparator `b.score - a.score`, as an in-place
    * stable insertion sort. Entries carry their input position, so the result is
    * ordered by score and, among equal scores, by position. */
  method SortByScore(a: array<Scored>)
    requires forall k :: 0 <= k < a.Length ==> a[k].pos == k
    modifies a
    ensures multiset(a[..]) == multiset(old(a[..]))
    ensures forall m, n :: 0 <= m < n < a.Length ==> Precedes(a[m], a[n])
  {
    var i := 0;
    while i < a.Length
      invariant 0 <= i <= a.Length
      invariant forall m, n :: 0 <= m < n < i ==> Precedes(a[m], a[n])
      invariant forall k :: 0 <= k < i ==> a[k].pos < i
      invariant forall k :: i <= k < a.Length ==> a[k] == old(a[k])
      invariant multiset(a[..]) == multiset(old(a[..]))
    {
      InsertIntoSorted(a, i);
      i := i + 1;
    }
  }

  /** `selectBestImage`: score every photo, sort, take the first. The chosen photo has
    * the greatest score, and among photos sharing it, the earliest in input order. */
  method SelectBestImage(photos: seq<Photo>, cityName: string) returns (best: Photo)
    requires |photos| > 0
    ensures best == photos[FirstMaxIndex(Scores(photos, cityName))]
  {
    var scored := new Scored[|photos|];
    for i := 0 to |photos|
      invariant forall k :: 0 <= k < i ==> scored[k] == Scored(photos[k], Score(photos[k], cityName), k)
    {
      var s := ScorePhoto(photos[i], cityName);
      scored[i] := Scored(photos[i], s, i);
    }
    ghost var input := scored[..];
    SortByScore(scored);
    best := scored[0].photo;

    ghost var scores := Scores(photos, cityName);
    assert scored[0] in multiset(input);
    ghost var m :| 0 <= m < |photos| && input[m] == scored[0];
    forall j | 0 <= j < |photos| && j != m
      ensures scores[j] <= scores[m] && (j < m ==> scores[j] < scores[m])
    {
      assert input[j] in multiset(scored[..]);
      var n :| 0 <= n < scored.Length && scored[n] == input[j];
      assert n != 0;
      assert Precedes(scored[0], scored[n]);
    }
    FirstMaxIndexUnique(scores, m);
  }

  /** Whatever the order of equally scored photos, the choice is a photo of maximal
    * score from the input. */
  lemma BestIsMaximal(photos: seq<Photo>, cityName: string)
    requires |photos| > 0
    ensures var best := photos[FirstMaxIndex(Scores(photos, cityName))];
      best in photos && forall p :: p in photos ==> Score(p, cityName) <= Score(best, cityName)
  {
    var s := Scores(photos, cityName);
    forall p | p in photos ensures Score(p, cityName) <= Score(photos[FirstMaxIndex(s)], cityName) {
      var j :| 0 <= j < |photos| && photos[j] == p;
      assert s[j] <= s[FirstMaxIndex(s)];
    }
  }
}

/** The card component itself: its fetch state and the guards of its render. */
module PhotoCard {
  import opened Wrappers
  import opened JsString
  import opened Unsplash
  import opened CityImageCard

  const PlaceholderKey: string := "your_unsplash_access_key_here"
  const KeyMissingError: string := "Unsplash API key not configured. Please add your key to .env file."
  const FallbackError: string := "Failed to load image. Using fallback."

  /** The scenic placeholder installed whenever the search fails. */
  const Fallback: Photo := Photo(
    "fallback",
    Urls("https://images.unsplash.com/photo-1506905925346-21bda4d32df4?w=1200&h=800&fit=crop",
         "https://images.unsplash.com/photo-1506905925346-21bda4d32df4?w=600&h=400&fit=crop",
         "https://images.unsplash.com/photo-1506905925346-21bda4d32df4"),
    User("Unsplash", "unsplash", "https://unsplash.com"),
    "https://unsplash.com",
    Some("Beautiful scenic landscape"),
    Some("Scenic mountain landscape"),
    None, None, None)

  /** The query the card sends for a city. */
  function ClientQuery(cityName: string): string {
    cityName + " skyline landmark famous travel"
  }

  /** A configured key: present, non-empty and not the placeholder. */
  predicate KeyUsable(accessKey: Option<string>) {
    Present(accessKey) && accessKey.value != PlaceholderKey
  }

  /** The photo a completed exchange selects: none when a search failed, threw, or
    * both came back empty; otherwise the best-ranked hit of the merged list. */
  function BestOf(exchange: SearchExchange, cityName: string): (r: Option<Photo>)
    ensures r.Some? ==> exchange.Answered? && exchange.landscape.ok && exchange.portrait.ok
    ensures r.Some? ==> r.value in Merge(exchange.landscape.body, exchange.portrait.body)
    ensures exchange.Answered? && exchange.landscape.ok && exchange.portrait.ok
            && |Merge(exchange.landscape.body, exchange.portrait.body)| > 0 ==>
      var all := Merge(exchange.landscape.body, exchange.portrait.body);
      r == Some(all[FirstMaxIndex(Scores(all, cityName))])
  {
    match exchange
    case Threw => None
    case Answered(landscape, portrait) =>
      if !landscape.ok || !portrait.ok then None
      else
        var all := Merge(landscape.body, portrait.body);
        if |all| > 0 then Some(all[FirstMaxIndex(Scores(all, cityName))]) else None
  }

  /** The selected photo outranks every other hit of the merged list. */
  lemma BestOfIsMaximal(exchange: SearchExchange, cityName: string)
    requires BestOf(exchange, cityName).Some?
    ensures forall p :: p in Merge(exchange.landscape.body, exchange.portrait.body) ==>
      Score(p, cityName) <= Score(BestOf(exchange, cityName).value, cityName)
  {
    BestIsMaximal(Merge(exchange.landscape.body, exchange.portrait.body), cityName);
  }

  /** `img alt`: the alt description, else the description, else "<city> iconic landmark". */
  function AltText(photo: Photo, cityName: string): (r: string)
    ensures r != ""
    ensures Present(photo.altDescription) ==> r == photo.altDescription.value
    ensures !Present(photo.altDescription) && Present(photo.description) ==> r == photo.description.value
    ensures !Present(photo.altDescription) && !Present(photo.description) ==> r == cityName + " iconic landmark"
  {
    OrElse(photo.altDescription, OrElse(photo.description, cityName + " iconic landmark"))
  }

  class ImageCard {
    const cityName: string
    var imageData: Option<Photo>
    var isLoading: bool
    var error: Option<string>

    /** The state `useState` starts from: no photo, loading, no error. */
    constructor (cityName: string)
      ensures this.cityName == cityName
      ensures imageData == None && isLoading && error == None
    {
      this.cityName := cityName;
      imageData := None;
      isLoading := true;
      error := None;
    }

    /** `fetchCityImage`. Returns the searches it sent; `exchange` is how they ended. */
    method FetchCityImage(accessKey: Option<string>, exchange: SearchExchange) returns (searches: seq<PhotoSearch>)
      modifies this
      ensures !isLoading
      ensures !KeyUsable(accessKey) ==>
        searches == [] && error == Some(KeyMissingError) && imageData == old(imageData)
      ensures KeyUsable(accessKey) ==> searches == Searches(ClientQuery(cityName), accessKey.value)
      ensures KeyUsable(accessKey) && BestOf(exchange, cityName).Some? ==>
        imageData == BestOf(exchange, cityName) && error == None
      ensures KeyUsable(accessKey) && BestOf(exchange, cityName).None? ==>
        imageData == Some(Fallback) && error == Some(FallbackError)
      ensures KeyUsable(accessKey) ==> ShowsPhoto() && !ShowsErrorPanel()
    {
      isLoading := true;
      error := None;
      if !KeyUsable(accessKey) {
        error := Some(KeyMissingError);
        isLoading := false;
        searches := [];
        return;
      }
      searches := Searches(ClientQuery(cityName), accessKey.value);
      var failed := false;
      match exchange {
        case Threw =>
          failed := true;
        case Answered(landscape, portrait) =>
          if !landscape.ok || !portrait.ok {
            failed := true;
          } else {
            var allResults := Merge(landscape.body, portrait.body);
            if |allResults| > 0 {
              var best := SelectBestImage(allResults, cityName);
              imageData := Some(best);
              error := None;
            } else {
              failed := true;
            }
          }
      }
      if failed {
        error := Some(FallbackError);
        imageData := Some(Fallback);
      }
      isLoading := false;
    }

    /** The shimmer and spinner. */
    predicate ShowsSpinner()
      reads this
    {
      isLoading
    }

    /** `error && !isLoading && !imageData`. */
    predicate ShowsErrorPanel()
      reads this
    {
      Present(error) && !isLoading && imageData.None?
    }

    /** `!isLoading && imageData`: the photo, its overlay and its attribution. */
    predicate ShowsPhoto()
      reads this
    {
      !isLoading && imageData.Some?
    }

    /** `!imageData && !isLoading`: the "Discover the beauty..." line. */
    predicate ShowsDiscoverText()
      reads this
    {
      imageData.None? && !isLoading
    }
  }

  /** What a freshly mounted card shows once its fetch completes: the error panel
    * exactly when no key is configured, and otherwise a photo, credited to
    * "Unsplash" when the search failed. */
  method MountAndFetch(cityName: string, accessKey: Option<string>, exchange: SearchExchange)
    returns (photo: Option<Photo>, errorPanel: bool, credit: Option<string>)
    ensures errorPanel <==> !KeyUsable(accessKey)
    ensures photo.Some? <==> KeyUsable(accessKey)
    ensures credit == if photo.Some? then Some(photo.value.user.name) else None
    ensures KeyUsable(accessKey) && BestOf(exchange, cityName).None? ==>
      photo == Some(Fallback) && credit == Some("Unsplash")
    ensures KeyUsable(accessKey) && BestOf(exchange, cityName).Some? ==> photo == BestOf(exchange, cityName)
  {
    var card := new ImageCard(cityName);
    var _ := card.FetchCityImage(accessKey, exchange);
    errorPanel := card.ShowsErrorPanel();
    photo := if card.ShowsPhoto() then card.imageData else None;
    credit := if photo.Some? then Some(photo.value.user.name) else None;
  }
}
