/** `app/page.tsx`: the dashboard page. Its state is a class; each handler is a
  * method whose remote exchanges (geocoding, forecast, the browser's position and
  * the reverse geocoder) are parameters saying how they ended. */
module Page {
  import opened Wrappers
  import opened JsString
  import opened WeatherTypes
  import opened WeatherApi

  const NotSupported: string := "Geolocation is not supported by your browser"
  const NoAddress: string := "Could not determine your location. Please search manually."
  const LocateFailed: string := "Failed to get your location. Please try searching manually."
  const NoLocations: string := "No locations found. Please try a different search."
  const SearchError: string := "Failed to search for location. Please try again."
  const WeatherError: string := "Failed to fetch weather data. Please try again."
  const DeniedPrefix: string := "Location access denied. "

  /** The codes of a `GeolocationPositionError`. */
  const PermissionDenied: int := 1
  const PositionUnavailable: int := 2
  const Timeout: int := 3

  /** How `getCurrentPosition` ended: with coordinates or with an error code. */
  datatype PositionOutcome =
    | Position(latitude: real, longitude: real)
    | PositionError(code: int)

  /** The `address` object of the reverse geocoder's answer. */
  datatype Address = Address(
    city: Option<string>,
    town: Option<string>,
    village: Option<string>,
    county: Option<string>,
    state: Option<string>,
    region: Option<string>,
    country: Option<string>)

  /** How the reverse-geocoding fetch ended: it threw, or it answered with an
    * address or without one. */
  datatype ReverseGeocode = ReverseThrew | ReverseAnswer(address: Option<Address>)

  /** The place name: the first present of city, town, village and county, else
    * "Unknown Location". */
  function PlaceName(a: Address): (r: string)
    ensures r != ""
    ensures Present(a.city) ==> r == a.city.value
    ensures !Present(a.city) && Present(a.town) ==> r == a.town.value
    ensures !Present(a.city) && !Present(a.town) && Present(a.village) ==> r == a.village.value
    ensures !Present(a.city) && !Present(a.town) && !Present(a.village) && Present(a.county) ==>
      r == a.county.value
    ensures !Present(a.city) && !Present(a.town) && !Present(a.village) && !Present(a.county) ==>
      r == "Unknown Location"
  {
    OrElse(a.city, OrElse(a.town, OrElse(a.village, OrElse(a.county, "Unknown Location"))))
  }

  /** The state: `state`, else `region`, else empty. */
  function StateName(a: Address): (r: string)
    ensures r == "" <==> !Present(a.state) && !Present(a.region)
    ensures Present(a.state) ==> r == a.state.value
    ensures !Present(a.state) && Present(a.region) ==> r == a.region.value
  {
    OrElse(a.state, OrElse(a.region, ""))
  }

  /** The message for a refused or failed position request. */
  function GeolocationErrorMessage(code: int): (r: string)
    ensures |r| >= |DeniedPrefix| && r[..|DeniedPrefix|] == DeniedPrefix
    ensures r == DeniedPrefix <==> code !in {PermissionDenied, PositionUnavailable, Timeout}
    ensures code == PermissionDenied ==>
      r[|DeniedPrefix|..] == "Please enable location permissions in your browser settings."
    ensures code == PositionUnavailable ==> r[|DeniedPrefix|..] == "Location information is unavailable."
    ensures code == Timeout ==> r[|DeniedPrefix|..] == "Location request timed out."
  {
    var suffix :=
      if code == PermissionDenied then "Please enable location permissions in your browser settings."
      else if code == PositionUnavailable then "Location information is unavailable."
      else if code == Timeout then "Location request timed out."
      else "";
    assert (DeniedPrefix + suffix)[..|DeniedPrefix|] == DeniedPrefix;
    assert (DeniedPrefix + suffix)[|DeniedPrefix|..] == suffix;
    DeniedPrefix + suffix
  }

  /** The weather a selected search result leads to: it arrives exactly when the
    * forecast does, labelled with the result's name, country and region. */
  function WeatherFor(location: GeocodingResult, reply: Reply<ForecastPayload>): (r: Result<WeatherData, Thrown>)
    ensures r.Success? <==> reply.Ok?
    ensures r.Success? ==> r.value.location == Location(location.name, location.latitude, location.longitude,
                                                        Some(location.country), location.admin1)
  {
    GetWeatherData(location.latitude, location.longitude, location.name,
                   Some(location.country), location.admin1, reply)
  }

  /** The weather a located position leads to: it arrives exactly when the forecast
    * does, at the position, under the address's place name, country ("" when absent)
    * and state. */
  function WeatherHere(latitude: real, longitude: real, a: Address, reply: Reply<ForecastPayload>): (r: Result<WeatherData, Thrown>)
    ensures r.Success? <==> reply.Ok?
    ensures r.Success? ==> r.value.location == Location(PlaceName(a), latitude, longitude,
                                                        Some(OrElse(a.country, "")), Some(StateName(a)))
  {
    GetWeatherData(latitude, longitude, PlaceName(a), Some(OrElse(a.country, "")), Some(StateName(a)), reply)
  }

  class Home {
    var weatherData: Option<WeatherData>
    var locationResults: seq<GeocodingResult>
    var isLoading: bool
    var error: Option<string>
    var isGeolocating: bool

    /** The page as first rendered: nothing loaded, nothing pending. */
    constructor ()
      ensures weatherData == None && locationResults == [] && !isLoading && error == None && !isGeolocating
    {
      weatherData := None;
      locationResults := [];
      isLoading := false;
      error := None;
      isGeolocating := false;
    }

    /** `handleLocationSelect`: fetch the chosen place's weather; on failure keep
      * whatever weather was shown before and say so. */
    method HandleLocationSelect(location: GeocodingResult, reply: Reply<ForecastPayload>)
      returns (sent: ForecastRequest)
      modifies this
      ensures sent == ForecastQuery(location.latitude, location.longitude)
      ensures !isLoading && locationResults == [] && isGeolocating == old(isGeolocating)
      ensures WeatherFor(location, reply).Success? ==>
        weatherData == Some(WeatherFor(location, reply).value) && error == None
      ensures WeatherFor(location, reply).Failure? ==>
        weatherData == old(weatherData) && error == Some(WeatherError)
      ensures WeatherFor(location, reply).Success? ==> ShowsWeather() && !ShowsGeolocateButton()
    {
      isLoading := true;
      error := None;
      locationResults := [];
      sent := ForecastQuery(location.latitude, location.longitude);
      var data := WeatherFor(location, reply);
      if data.Success? {
        weatherData := Some(data.value);
      } else {
        error := Some(WeatherError);
      }
      isLoading := false;
    }

    /** `handleSearch`: no match is an error, one match is selected at once, several
      * are listed. `weatherReply` is how the forecast fetch ends when one is made. */
    method HandleSearch(query: string, searchReply: Reply<GeocodePayload>, weatherReply: Reply<ForecastPayload>)
      returns (sent: GeocodeRequest)
      modifies this
      ensures sent == GeocodeQuery(query)
      ensures !isLoading && isGeolocating == old(isGeolocating)
      ensures SearchLocation(searchReply).Failure? ==>
        error == Some(SearchError) && locationResults == [] && weatherData == old(weatherData)
      ensures SearchLocation(searchReply).Success? && |SearchLocation(searchReply).value| == 0 ==>
        error == Some(NoLocations) && locationResults == [] && weatherData == old(weatherData)
      ensures SearchLocation(searchReply).Success? && |SearchLocation(searchReply).value| == 1 ==>
        var w := WeatherFor(SearchLocation(searchReply).value[0], weatherReply);
        locationResults == []
        && (w.Success? ==> weatherData == Some(w.value) && error == None)
        && (w.Failure? ==> weatherData == old(weatherData) && error == Some(WeatherError))
      ensures SearchLocation(searchReply).Success? && |SearchLocation(searchReply).value| > 1 ==>
        locationResults == SearchLocation(searchReply).value && error == None && weatherData == old(weatherData)
      ensures ShowsError() || ShowsResults() || ShowsWeather()
      ensures !ShowsEmptyState()
    {
      isLoading := true;
      error := None;
      locationResults := [];
      sent := GeocodeQuery(query);
      var results := SearchLocation(searchReply);
      if results.Failure? {
        error := Some(SearchError);
      } else if |results.value| == 0 {
        error := Some(NoLocations);
      } else if |results.value| == 1 {
        var _ := HandleLocationSelect(results.value[0], weatherReply);
      } else {
        locationResults := results.value;
      }
      isLoading := false;
    }

    /** `handleGeolocation`. `supported` is whether the browser has geolocation,
      * `position` how the position request ended, `reverse` how the reverse geocoder
      * answered and `weatherReply` how the forecast fetch ended. */
    method HandleGeolocation(supported: bool, position: PositionOutcome, reverse: ReverseGeocode,
                             weatherReply: Reply<ForecastPayload>)
      modifies this
      ensures weatherData.Some? ==> old(weatherData).Some? || (supported && position.Position?)
      ensures locationResults == old(locationResults) && isLoading == old(isLoading)
      ensures !supported ==>
        error == Some(NotSupported) && weatherData == old(weatherData) && isGeolocating == old(isGeolocating)
      ensures supported ==> !isGeolocating
      ensures supported && position.PositionError? ==>
        error == Some(GeolocationErrorMessage(position.code)) && weatherData == old(weatherData)
      ensures supported && position.Position? && reverse.ReverseThrew? ==>
        error == Some(LocateFailed) && weatherData == old(weatherData)
      ensures supported && position.Position? && reverse == ReverseAnswer(None) ==>
        error == Some(NoAddress) && weatherData == old(weatherData)
      ensures supported && position.Position? && reverse.ReverseAnswer? && reverse.address.Some? ==>
        var w := WeatherHere(position.latitude, position.longitude, reverse.address.value, weatherReply);
        (w.Success? ==> weatherData == Some(w.value) && error == None)
        && (w.Failure? ==> weatherData == old(weatherData) && error == Some(LocateFailed))
    {
      if !supported {
        error := Some(NotSupported);
        return;
      }
      isGeolocating := true;
      error := None;
      match position {
        case PositionError(code) =>
          error := Some(GeolocationErrorMessage(code));
        case Position(latitude, longitude) =>
          match reverse {
            case ReverseThrew =>
              error := Some(LocateFailed);
            case ReverseAnswer(address) =>
              if address.Some? {
                var data := WeatherHere(latitude, longitude, address.value, weatherReply);
                if data.Success? {
                  weatherData := Some(data.value);
                } else {
                  error := Some(LocateFailed);
                }
              } else {
                error := Some(NoAddress);
              }
          }
      }
      isGeolocating := false;
    }

    /** `!weatherData`: the "Use My Location" button. */
    predicate ShowsGeolocateButton()
      reads this
    {
      weatherData.None?
    }

    /** `isLoading || isGeolocating`, which the search bar receives as `isLoading`. */
    predicate SearchBusy()
      reads this
    {
      isLoading || isGeolocating
    }

    predicate ShowsSpinner()
      reads this
    {
      isLoading
    }

    predicate ShowsError()
      reads this
    {
      Present(error)
    }

    predicate ShowsResults()
      reads this
    {
      |locationResults| > 0
    }

    /** `weatherData && !isLoading`: the forecast, overview and sidebar cards. */
    predicate ShowsWeather()
      reads this
    {
      weatherData.Some? && !isLoading
    }

    /** "Search for a city to get started". */
    predicate ShowsEmptyState()
      reads this
    {
      weatherData.None? && !isLoading && !Present(error) && |locationResults| == 0
    }
  }

  /** What the page shows once an event has been handled. */
  datatype View = View(
    geolocateButton: bool, spinner: bool, errorText: Option<string>,
    results: seq<GeocodingResult>, weather: Option<WeatherData>, emptyState: bool)

  /** A search typed into a freshly loaded page: the page then shows an error, a
    * list of several places, or the weather of the only match, and never the
    * empty state; it shows the weather exactly when one place matched and its
    * forecast arrived. */
  method SearchOnFreshPage(query: string, searchReply: Reply<GeocodePayload>, weatherReply: Reply<ForecastPayload>)
    returns (view: View)
    ensures !view.emptyState && !view.spinner
    ensures view.errorText.Some? || |view.results| > 1 || view.weather.Some?
    ensures view.weather.Some? <==>
      SearchLocation(searchReply).Success? && |SearchLocation(searchReply).value| == 1
      && WeatherFor(SearchLocation(searchReply).value[0], weatherReply).Success?
    ensures view.geolocateButton <==> view.weather.None?
    ensures view.errorText == Some(NoLocations) <==>
      SearchLocation(searchReply).Success? && |SearchLocation(searchReply).value| == 0
  {
    var home := new Home();
    var _ := home.HandleSearch(query, searchReply, weatherReply);
    view := View(home.ShowsGeolocateButton(), home.ShowsSpinner(),
                 if home.ShowsError() then home.error else None,
                 home.locationResults,
                 if home.ShowsWeather() then home.weatherData else None,
                 home.ShowsEmptyState());
  }
}
