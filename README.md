# WeatherSnap dashboard core in Dafny

This project models the decision logic of the WeatherSnap dashboard, a Next.js app.
The app looks up a city with the Open-Meteo geocoder and shows its current weather,
seven-day forecast, today's overview and four hourly slots. Beside them it shows a
photo of the city, picked from two Unsplash searches by a scoring heuristic.

Every network exchange is a parameter of the model that says how the exchange
ended. This covers the geocoder, the forecast, the two photo searches, the browser's
position and the reverse geocoder. What remains is sequential logic:

- `CityImageCard` holds the photo scorer. The scoring loop (`ScorePhoto`) and the
  stable descending sort (`SortByScore`, an in-place insertion sort on an array) are
  methods. They are proved against the specification functions `Score` and
  `FirstMaxIndex`.
- `PhotoCard` holds the card's fetch state machine. It is the class `ImageCard` with
  the fields `imageData`, `isLoading` and `error`, plus its render guards.
- `WeatherApi` holds the geocoder query and the reshaping of the forecast's column
  arrays into records.
- `TemperatureUtils` and `UnitConversion` hold the unit conversions and the
  displayed rounding.
- `TodayOverview` holds the overview classifiers.
- `HourlyTemperatureCard` holds the hourly chart.
- `LocationCard` and `LocationResults` hold the place labels.
- `SearchBar` is a class whose `query` field is overwritten on every change.
- `UnsplashRoute` holds the photo proxy route. It is a pure function of the city
  parameter, the key and the two search outcomes.
- `Page` holds the page. It is the class `Home` with the page's state fields, and
  one method per handler.

The JavaScript built-ins the code relies on are modelled in small modules with
their edge cases:

- `Math.round` rounds halves up.
- `%` truncates, so a negative dividend gives a negative remainder.
- An out-of-range array read is `undefined`.
- `toLowerCase`, `trim` and `includes` work on strings.
- `filter(Boolean).join` drops empty parts before joining.
- An integer's decimal text reads back as the same integer.

JavaScript numbers are exact reals. Likes, width and height are integers. An absent
field is `None`.

## Model

| member | source | states |
|---|---|---|
| JsMath.Round | lib/temperatureUtils.ts:22 | `Math.round(x)` is the integer within half a unit of x, with halves going up |
| JsMath.RoundMonotone | lib/temperatureUtils.ts:22 | rounding never reverses the order of two values |
| JsMath.RoundOfInteger | lib/temperatureUtils.ts:22 | a whole number rounds to itself |
| JsMath.ToFixed1 | components/TodayOverview.tsx:53 | the one-decimal visibility is a multiple of 0.1 within 0.05 of the exact value, a tie going away from zero, and is not negative for a non-negative value |
| JsArray.At | lib/weatherApi.ts:59-62 | an array read is defined exactly for in-range indices, and then it gives that element |
| JsArray.Slice | lib/weatherApi.ts:57 | `slice` clamps its bounds to the array and entry k is element start+k |
| JsString.OrElse | app/page.tsx:56-58 | `s \|\| fallback` gives s when s is present and non-empty, and the fallback otherwise |
| JsString.Contains | components/CityImageCard.tsx:60 | `text.includes(pattern)`: the pattern occurs at some offset of the text; `ContainsEmpty` and `CountMatchesCountsPresent` are about it |
| JsString.Lower | components/CityImageCard.tsx:58 | lower-casing keeps the length |
| JsString.ContainsEmpty | components/CityImageCard.tsx:60 | every text includes the empty string |
| JsString.TrimStartShape | components/SearchBar.tsx:16 | trimming the start removes exactly a leading run of whitespace and leaves a non-space first character or nothing |
| JsString.TrimEndShape | components/SearchBar.tsx:16 | trimming the end removes exactly a trailing run of whitespace and leaves a non-space last character or nothing |
| JsString.TrimShape | components/SearchBar.tsx:16-17 | `trim()` is a slice with only whitespace outside it, and neither of its ends is whitespace |
| JsString.Trim | components/SearchBar.tsx:16-17 | `trim()`: the leading then the trailing whitespace run removed; its properties are `TrimShape`, `TrimEmptyIffAllSpace` and `TrimIdempotent` |
| JsString.TrimEmptyIffAllSpace | components/SearchBar.tsx:16 | the trimmed text is empty exactly when the whole text is whitespace |
| JsString.TrimIdempotent | components/SearchBar.tsx:17 | trimming twice is the same as trimming once |
| JsString.FilterTruthy | components/LocationCard.tsx:26-27 | `filter(Boolean)` keeps no more parts than it is given, and none of the kept parts is empty |
| JsString.FilterTruthyAppend | components/LocationResults.tsx:35 | filtering keeps the order of the parts across a concatenation |
| JsString.Join | components/LocationCard.tsx:28 | `parts.join(sep)`: the parts with one separator between neighbours; its properties are `JoinEnds` and `JoinEmptyIff` |
| JsString.JoinEnds | components/LocationCard.tsx:28 | the joined text starts with the first part and ends with the last part |
| JsString.JoinEmptyIff | components/LocationCard.tsx:28 | non-empty parts join to the empty string only when there are no parts |
| JsString.NatToStringRoundTrip | lib/temperatureUtils.ts:22 | a natural number's decimal text is all digits, has no sign, starts with "0" only for zero (so no leading zeros), and parses back to the number |
| JsString.IntToString | lib/temperatureUtils.ts:22 | the text of `${n}` for an integer: a minus sign for a negative, then the decimal digits; `IntToStringRoundTrip` reads it back |
| JsString.IntToStringRoundTrip | lib/temperatureUtils.ts:22 | an integer's decimal text parses back to the integer; it starts with a minus sign exactly for a negative integer, and no "0" follows the sign or leads a positive number |
| TemperatureUtils.CelsiusToFahrenheit | lib/temperatureUtils.ts:3-5 | the conversion is undone by (f−32)·5/9, and −40 is its only fixed point |
| TemperatureUtils.FahrenheitLandmarks | lib/temperatureUtils.ts:3-5 | 0 °C is 32 °F, 100 °C is 212 °F, and −40 maps to itself |
| TemperatureUtils.FahrenheitStrictlyIncreasing | lib/temperatureUtils.ts:3-5 | a warmer Celsius value is always a warmer Fahrenheit value |
| TemperatureUtils.ConvertTemperature | lib/temperatureUtils.ts:7-15 | "C" returns the value unchanged and "F" returns the Fahrenheit conversion |
| TemperatureUtils.FormatTemperature | lib/temperatureUtils.ts:17-23 | the text has at least three characters and ends in "°" followed by the unit letter |
| TemperatureUtils.FormatTemperatureReadsBack | lib/temperatureUtils.ts:17-23 | the text splits into a decimal integer that parses back to the rounded converted value, then "°", then the unit letter |
| UnitConversion.ConvertWindSpeed | lib/unitConversion.ts:3-8 | metric returns the speed unchanged; imperial multiplies it by 0.621371, and for a non-negative speed the result lies between 0 and the speed |
| UnitConversion.WindSpeedExample | lib/unitConversion.ts:4-5 | 100 km/h converts to 62.1371 mph |
| UnitConversion.ConvertWindSpeedMonotone | lib/unitConversion.ts:3-8 | the conversion keeps the order of two speeds in both unit systems |
| UnitConversion.GetWindSpeedUnit | lib/unitConversion.ts:10-12 | the unit is "mph" exactly for imperial and "km/h" otherwise |
| WeatherApi.GeocodeQuery | lib/weatherApi.ts:7-9 | the geocoder is asked for the query text with at most 5 matches |
| WeatherApi.SearchLocation | lib/weatherApi.ts:6-17 | the search fails exactly on a non-ok or rejected reply: a non-ok status throws "Failed to search location", while a rejected fetch or an undecodable body passes its own error on; a payload without `results` gives the empty list, and otherwise the results as sent |
| WeatherApi.ForecastQuery | lib/weatherApi.ts:26-35 | the forecast is asked for the given coordinates, 8 days and 24 hours |
| WeatherApi.ReshapeCurrent | lib/weatherApi.ts:46-56 | each current-weather field is the provider field it renames |
| WeatherApi.ReshapeDaily | lib/weatherApi.ts:57-63 | there are min(7, days−1) entries, and every field of entry i is read from provider index i+1, undefined when that column is short |
| WeatherApi.ReshapeHourly | lib/weatherApi.ts:64-68 | there are min(24, hours) entries, and every field of entry i is read from provider index i |
| WeatherApi.Reshape | lib/weatherApi.ts:45-80 | the location echoes the arguments; sunrise and sunset are read from daily index 0 |
| WeatherApi.GetWeatherData | lib/weatherApi.ts:19-81 | the fetch fails exactly on a non-ok or rejected reply: a non-ok status throws "Failed to fetch weather data", while a rejected fetch or an undecodable body passes its own error on; otherwise it returns the reshaped payload |
| WeatherApi.FullAnswerIsComplete | lib/weatherApi.ts:33-34 | a full 8-day, 24-hour answer yields exactly 7 days and 24 hours with no field undefined |
| WeatherApi.DailyOmitsToday | lib/weatherApi.ts:57-79 | when the dates are distinct, no daily entry is today (provider day 0), the day whose sunrise and sunset are shown |
| TodayOverview.JsRemainder | components/TodayOverview.tsx:30 | `%` truncates: the remainder lies strictly between −b and b, agrees with the modulus for a non-negative dividend, and for a negative dividend is a + b·((−a) div b), never positive |
| TodayOverview.GetWindDirection | components/TodayOverview.tsx:28-32 | every non-negative bearing gets a compass point |
| TodayOverview.WindDirectionSector | components/TodayOverview.tsx:28-32 | sectors k = 0..8 of 45° centred on k·45° get point k mod 8, a boundary bearing going to the clockwise point; sector 8 runs from 337.5° to 382.5°, so the bearings just below 360° read N |
| TodayOverview.WindDirectionPeriodic | components/TodayOverview.tsx:28-32 | adding a full turn does not change the compass point |
| TodayOverview.WindDirectionLandmarks | components/TodayOverview.tsx:28-32 | 0°, 350° and 360° are N, 22.5° is NE, and −45° reads `undefined` |
| TodayOverview.GetUVLevel | components/TodayOverview.tsx:35-41 | each band holds exactly for its range (≤2 Low, ≤5 Moderate, ≤7 High, ≤10 Very High, otherwise Extreme) and comes with its fixed colour |
| TodayOverview.UvColor | components/TodayOverview.tsx:36-40 | the colour class of each UV band: green, yellow, orange, red, and purple for Extreme; `GetUVLevel` states that each band comes with it |
| TodayOverview.UvLevelMonotone | components/TodayOverview.tsx:35-41 | a higher UV index never gets a lower band |
| TodayOverview.GetVisibilityDescription | components/TodayOverview.tsx:44-50 | each description holds exactly for its kilometre range (≥10, ≥5, ≥2, otherwise very poor) |
| TodayOverview.VisibilityMonotone | components/TodayOverview.tsx:44-50 | a longer visibility never gets a worse description |
| TodayOverview.HumidityLabel | components/TodayOverview.tsx:141 | each humidity label holds exactly for its range |
| TodayOverview.FeelsLikeLabel | components/TodayOverview.tsx:179-181 | the label says "Feels different than actual" exactly when the two Celsius values differ by more than 3 |
| TodayOverview.FeelsLikeInFahrenheit | components/TodayOverview.tsx:174-181 | in Fahrenheit the same label is a gap of more than 5.4 degrees |
| TodayOverview.Overview | components/TodayOverview.tsx:52-181 | the wind shown is the rounded converted speed, the feels-like value is the rounded converted temperature, and the visibility is within 0.05 km of metres/1000; the label compares Celsius values |
| TodayOverview.OverviewLabelsIgnoreUnits | components/TodayOverview.tsx:52-181 | switching either display unit changes no band or label |
| HourlyTemperatureCard.GetTimeSlots | components/HourlyTemperatureCard.tsx:16-23 | there are four slots, Morning, Afternoon, Evening and Night, read from hourly indices 6, 12, 18 and 0 |
| HourlyTemperatureCard.PlottedTemperature | components/HourlyTemperatureCard.tsx:29 | a slot plots at its reading, and at 0 when the slot or its reading is missing |
| HourlyTemperatureCard.Temps | components/HourlyTemperatureCard.tsx:29 | one plotted temperature per slot, in slot order |
| HourlyTemperatureCard.MinOf | components/HourlyTemperatureCard.tsx:30 | `Math.min` gives a member of the list that is at most every member |
| HourlyTemperatureCard.MaxOf | components/HourlyTemperatureCard.tsx:31 | `Math.max` gives a member of the list that is at least every member |
| HourlyTemperatureCard.ChartRange | components/HourlyTemperatureCard.tsx:32 | the range is positive: max − min, or 1 when the two are equal |
| HourlyTemperatureCard.PointX | components/HourlyTemperatureCard.tsx:52 | `(index * 400) / 3`, the x of a slot, used by the line and the dots alike (line 67); `ChartPointsInBounds` gives its four values |
| HourlyTemperatureCard.PointY | components/HourlyTemperatureCard.tsx:54 | `100 - ((temp - minTemp) / range) * 80 - 10`, the y of a slot, used by the line and the dots alike (line 69); `PointYBounds` bounds it |
| HourlyTemperatureCard.PointYBounds | components/HourlyTemperatureCard.tsx:54-69 | a temperature between the extremes plots between y = 10 and y = 90; the minimum plots at 90 and, when the range is max − min, the maximum plots at 10 |
| HourlyTemperatureCard.ChartPointsInBounds | components/HourlyTemperatureCard.tsx:50-80 | the x values are 0, 400/3, 800/3 and 400; every y lies in [10, 90]; the coldest slot is at y = 90 |
| HourlyTemperatureCard.ChartPoints | components/HourlyTemperatureCard.tsx:50-80 | one point per slot, four in all; their coordinates are `ChartPointsInBounds` |
| HourlyTemperatureCard.ChartSpansWhenUneven | components/HourlyTemperatureCard.tsx:30-54 | when the temperatures differ, the warmest slot is at y = 10 |
| HourlyTemperatureCard.SlotLabelAsWrittenIsGarbled | components/HourlyTemperatureCard.tsx:92-94 | as written, a slot with a reading ends in "Â°" and never equals the intended label |
| HourlyTemperatureCard.SlotLabelMatchesFormatter | components/HourlyTemperatureCard.tsx:92-94 | a label is "N/A" exactly for a missing slot; otherwise it is the formatter's text for the same reading, without the unit letter |
| HourlyTemperatureCard.SlotLabelAsWritten | components/HourlyTemperatureCard.tsx:92-94 | the label as the file holds it: "N/A" without data, otherwise the rounded reading followed by the mis-encoded sign "Â°"; `SlotLabelAsWrittenIsGarbled` states what it gets wrong |
| HourlyTemperatureCard.SlotLabel | components/HourlyTemperatureCard.tsx:92-94 | the corrected label, with "°"; `SlotLabelMatchesFormatter` ties it to the shared formatter |
| LocationCard.LocationDisplayShape | components/LocationCard.tsx:26-28 | the label is the non-empty parts among name, state and country, in that order, joined by ", ", so no separator leads, trails or doubles |
| LocationCard.LocationDisplayStartsWithName | components/LocationCard.tsx:26-28 | a non-empty name always begins the label, and a name alone is the whole label |
| LocationCard.LocationDisplayFull | components/LocationCard.tsx:26-28 | with all three parts present the label is "name, state, country" |
| LocationCard.LocationDisplayEmptyIff | components/LocationCard.tsx:26-28 | the label is empty exactly when all three parts are empty or absent |
| LocationCard.LocationDisplay | components/LocationCard.tsx:26-28 | the heading: the parts that are present and non-empty, joined by ", "; its properties are the four LocationDisplay lemmas |
| LocationCard.CardTemperature | components/LocationCard.tsx:41-43 | the big number plus the unit letter is the formatter's text for the same temperature |
| LocationResults.SubtitleShape | components/LocationResults.tsx:35 | the subtitle is "admin1, country" when both are present, and the country alone without admin1 |
| LocationResults.Subtitle | components/LocationResults.tsx:35 | the region line: admin1 and country, empty ones dropped, joined by ", "; its shape is `SubtitleShape` |
| LocationResults.Render | components/LocationResults.tsx:12-22 | nothing is rendered exactly when the list is empty; otherwise there is one entry per result, in order |
| LocationResults.Choose | components/LocationResults.tsx:25 | the result an entry's click hands to `onSelect`; `ChooseSelectsThatResult` ties it to the rendered list |
| LocationResults.ChooseSelectsThatResult | components/LocationResults.tsx:25 | choosing entry i hands result i to `onSelect` |
| SearchBar.SearchBar.constructor | components/SearchBar.tsx:12 | the query starts empty |
| SearchBar.SearchBar.Change | components/SearchBar.tsx:27 | the query becomes exactly the typed value |
| SearchBar.SearchBar.Submit | components/SearchBar.tsx:14-19 | `onSearch` is called exactly when the query is not all whitespace, and it receives the trimmed query, which is non-empty and has no space at either end |
| SearchBar.SearchBar.SubmitDisabled | components/SearchBar.tsx:37 | the button is disabled exactly while loading or while the query is all whitespace |
| SearchBar.SearchBar.InputDisabled | components/SearchBar.tsx:29 | the text field is disabled exactly while loading |
| SearchBar.TypeThenSubmit | components/SearchBar.tsx:14-29 | typing then submitting twice searches the trimmed text both times, or neither time when it is blank |
| Unsplash.Searches | app/api/unsplash/route.ts:62-88 | there are two searches, landscape then portrait, with the same query, 30 per page, ordered by relevance, and the same key |
| Unsplash.Merge | app/api/unsplash/route.ts:105-108 | the landscape results (none when absent) come first, followed by the portrait results |
| UnsplashRoute.SearchQuery | app/api/unsplash/route.ts:61 | the text both searches send: the city followed by " landmark iconic famous architecture monument"; `ValidationFirst` states that both searches use it |
| UnsplashRoute.SumTotals | app/api/unsplash/route.ts:122 | the summed `total`: the sum when both totals are present, and `null` (the JSON form of `NaN`) otherwise; `BothOk` states that a results reply carries it |
| UnsplashRoute.FailureStatusAsWritten | app/api/unsplash/route.ts:96 | `landscapeResponse.status \|\| portraitResponse.status`: the landscape status unless it is 0; `PortraitFailureReportedAsOk` exhibits the 200 it gives when only the portrait search failed |
| UnsplashRoute.FailureStatus | app/api/unsplash/route.ts:96 | the corrected status: that of the failed search, the landscape one first; `UpstreamFailureStatusIsError` proves it is never 2xx |
| UnsplashRoute.PortraitFailureReportedAsOk | app/api/unsplash/route.ts:91-97 | as written, a failed portrait search beside a 200 landscape search is answered with an error under status 200; the corrected route answers 403 |
| UnsplashRoute.Respond | app/api/unsplash/route.ts:35-139 | searches are issued exactly when city and key are both present; a results body comes exactly from two ok searches with a non-empty merge, with status 200 and the Cache-Control header; an error body carries no header |
| UnsplashRoute.GetAsWritten | app/api/unsplash/route.ts:91-97 | as written, an upstream-failure reply comes only from an answered exchange with a failed search, under the landscape status or, when that is 0, the portrait status |
| UnsplashRoute.Get | app/api/unsplash/route.ts:91-97 | corrected, an upstream-failure reply carries the status of the failed landscape search, or of the failed portrait search when the landscape search was ok |
| UnsplashRoute.UpstreamFailureStatusIsError | app/api/unsplash/route.ts:91-97 | when the upstream statuses are well-formed, the corrected route never reports an upstream failure under a 2xx status |
| UnsplashRoute.GetAgreesWithAsWritten | app/api/unsplash/route.ts:35-139 | the corrected and as-written routes answer alike except when the landscape search succeeded or had status 0 while a search failed |
| UnsplashRoute.ValidationFirst | app/api/unsplash/route.ts:42-62 | a missing or empty city gives 400 whatever the key, then a missing key gives 500, and neither issues a search; otherwise both searches use the city's query |
| UnsplashRoute.ThrowIsInternalError | app/api/unsplash/route.ts:132-137 | any throw after validation gives 500 "Internal server error" |
| UnsplashRoute.BothOk | app/api/unsplash/route.ts:100-130 | with both searches ok, an empty merge gives 404; otherwise the reply is 200 with landscape then portrait results, the city, the Cache-Control header and the summed totals, `null` when either total is missing |
| UnsplashRoute.SuccessCarriesPhotos | app/api/unsplash/route.ts:111-129 | in the corrected route, a 200 reply holds at least one photo, and every photo comes from one of the two searches |
| UnsplashRoute.SuccessCarriesPhotosAsWritten | app/api/unsplash/route.ts:91-129 | in the route as written, when the landscape status is not 0 and a failed landscape search is the only way a search fails, a 200 reply likewise holds at least one photo, each from one of the two searches |
| CityImageCard.CountMatches | components/CityImageCard.tsx:61-62 | the number of matched keywords is at most the number of keywords |
| CityImageCard.DescriptionText | components/CityImageCard.tsx:58 | the lower-cased description, a space and the alt description, an absent one read as ""; `CityBonus` and `KeywordScore` search it |
| CityImageCard.CityBonus | components/CityImageCard.tsx:58-60 | +60 exactly when the lower-cased description text includes the lower-cased city name; an empty city name always earns it |
| CityImageCard.KeywordScore | components/CityImageCard.tsx:44-62 | the keyword term lies in [−480, 330] |
| CityImageCard.CountMatchesPresenceOnly | components/CityImageCard.tsx:61-62 | two texts that include the same keywords score the same, however often each keyword occurs |
| CityImageCard.CountMatchesCountsPresent | components/CityImageCard.tsx:61-62 | the count is the number of keywords that occur |
| CityImageCard.LikesTier | components/CityImageCard.tsx:64-68 | the tier bonus is 0 without likes or at ≤100 likes, and 50, 80 or 100 above 100, 500 or 1000 likes |
| CityImageCard.LikesShare | components/CityImageCard.tsx:70 | the continuous term is likes/50 capped at 30, and 0 without likes |
| CityImageCard.ResolutionScore | components/CityImageCard.tsx:72-75 | the resolution term lies in [−60, 30], and it is 0 when both dimensions are missing |
| CityImageCard.Score | components/CityImageCard.tsx:56-78 | no photo scores above 550, and one whose likes are not negative scores at least −540 |
| CityImageCard.Scores | components/CityImageCard.tsx:56-78 | there is one score per photo, in input order |
| CityImageCard.ScorePhoto | components/CityImageCard.tsx:56-78 | the accumulator loop over the keyword lists ends with the photo's score |
| CityImageCard.FirstMaxIndex | components/CityImageCard.tsx:80-81 | the position holds the greatest score, and every earlier position scores strictly less |
| CityImageCard.FirstMaxIndexUnique | components/CityImageCard.tsx:80-81 | being maximal and ahead of every equal score determines the position |
| CityImageCard.SwapAdjacent | components/CityImageCard.tsx:80 | two neighbouring entries are exchanged, and the rest stays put |
| CityImageCard.InsertIntoSorted | components/CityImageCard.tsx:80 | one more entry joins the sorted prefix, which stays sorted by descending score and then input position; the entries are permuted and the rest is untouched |
| CityImageCard.SortByScore | components/CityImageCard.tsx:80 | the stable sort on `b.score - a.score` permutes the array into descending score, with equal scores keeping their input order |
| CityImageCard.SelectBestImage | components/CityImageCard.tsx:43-82 | a non-empty input returns the earliest photo of maximal score |
| CityImageCard.BestIsMaximal | components/CityImageCard.tsx:80-81 | the chosen photo's score is at least every input photo's score |
| PhotoCard.BestOf | components/CityImageCard.tsx:135-154 | a photo is chosen only when both searches were ok, and it comes from their merged results; conversely two ok searches with a non-empty merge choose the earliest merged result of maximal score |
| PhotoCard.BestOfIsMaximal | components/CityImageCard.tsx:143-150 | the chosen photo outranks every merged result |
| PhotoCard.ClientQuery | components/CityImageCard.tsx:107 | the text the card searches for: the city followed by " skyline landmark famous travel"; `FetchCityImage` states that both searches send it |
| PhotoCard.KeyUsable | components/CityImageCard.tsx:100 | a key is usable exactly when it is present, non-empty and not the placeholder "your_unsplash_access_key_here" |
| PhotoCard.AltText | components/CityImageCard.tsx:219 | the alt text is the alt description, otherwise the description, otherwise "<city> iconic landmark"; it is never empty |
| PhotoCard.ImageCard.constructor | components/CityImageCard.tsx:86-88 | the card starts loading, with no photo and no error |
| PhotoCard.ImageCard.FetchCityImage | components/CityImageCard.tsx:92-184 | a missing, empty or placeholder key sets the key error, sends nothing and leaves the photo alone; otherwise both searches are sent. Success shows the best photo with no error; any failure installs the fallback photo `Fallback` (lines 160-180) with the fallback error. Loading always ends, and with a key the error panel never shows |
| PhotoCard.ImageCard.ShowsSpinner | components/CityImageCard.tsx:196 | the shimmer shows exactly while loading |
| PhotoCard.ImageCard.ShowsErrorPanel | components/CityImageCard.tsx:207 | the error panel shows exactly when there is an error, loading has ended and there is no photo |
| PhotoCard.ImageCard.ShowsPhoto | components/CityImageCard.tsx:215 | the photo shows exactly when loading has ended and there is a photo |
| PhotoCard.ImageCard.ShowsDiscoverText | components/CityImageCard.tsx:277 | the "Discover the beauty" line shows exactly when loading has ended without a photo |
| PhotoCard.MountAndFetch | components/CityImageCard.tsx:190-281 | after the fetch a fresh card shows the error panel exactly when no key is configured and a photo exactly when one is; a failed search shows the fallback, credited to "Unsplash" |
| Page.PlaceName | app/page.tsx:56 | the name is the first present of city, town, village and county, otherwise "Unknown Location"; it is never empty |
| Page.StateName | app/page.tsx:57 | the state is `state` when present, otherwise `region` when present, and empty exactly when both are absent |
| Page.GeolocationErrorMessage | app/page.tsx:80-90 | the message starts with "Location access denied. " and adds the suffix for code 1, 2 or 3; any other code gets the prefix alone |
| Page.WeatherHere | app/page.tsx:55-66 | located weather arrives exactly when the forecast does, at the position, under the address's place name, country ("" when absent) and state |
| Page.WeatherFor | app/page.tsx:130-136 | selected weather arrives exactly when the forecast does, labelled with the result's name, coordinates, country and admin1 |
| Page.Home.constructor | app/page.tsx:21-27 | the page starts with no data, no results, no error, and nothing loading |
| Page.Home.HandleLocationSelect | app/page.tsx:124-144 | the weather is replaced only on a successful fetch; a failure sets the error and keeps the previous data; the results are cleared and loading ends |
| Page.Home.HandleSearch | app/page.tsx:101-122 | a failed search or zero matches set their error; one match is selected; several become the result list. Loading ends, and the page then shows an error, results or weather, never the empty state |
| Page.Home.HandleGeolocation | app/page.tsx:29-99 | no geolocation support sets its error and nothing else; a position error sets the coded message; a throw or a missing address sets its error; an address fetches the weather under the fallback name. Data changes only on success, and locating ends |
| Page.Home.ShowsGeolocateButton | app/page.tsx:168 | the "Use My Location" button shows exactly while there is no weather |
| Page.Home.SearchBusy | app/page.tsx:181 | the search bar is busy while a search or a location request is in progress |
| Page.Home.ShowsSpinner | app/page.tsx:185 | the spinner shows exactly while a search or selection is loading |
| Page.Home.ShowsError | app/page.tsx:192 | the error banner shows exactly when there is a non-empty error |
| Page.Home.ShowsResults | app/page.tsx:202 | the result list shows exactly when there are results |
| Page.Home.ShowsWeather | app/page.tsx:210 | the weather panels show exactly when there is weather and nothing is loading |
| Page.Home.ShowsEmptyState | app/page.tsx:271 | the welcome state shows exactly with no weather, no loading, no error and no results |
| Page.SearchOnFreshPage | app/page.tsx:101-271 | after a search on a fresh page there is no spinner and no empty state. The page shows an error, several places, or the weather, and the weather exactly when one place matched and its forecast arrived. The geolocate button shows exactly when there is no weather |

## Left out

- `fetch`, `Promise.all`, `async`/`await` and JSON decoding are not modelled. Each
  exchange is a parameter that says how it ended. A body that fails to decode is
  treated as a throw.
- Stale responses racing each other are not modelled. The page avoids them by
  remounting the photo card under a key; that is concurrency.
- `navigator.geolocation` itself is left out. Whether it exists and how the position
  request ended are parameters. The request options (high accuracy, a 10 s timeout)
  are not modelled.
- `console.error` logging is left out. The error text read at
  app/api/unsplash/route.ts:92 is only logged, so it is not modelled. That read can
  itself reject, and the catch at app/api/unsplash/route.ts:132-137 then answers 500.
  `UnsplashRoute.Respond` gives that 500 only for the `Threw` exchange: an answered
  exchange with a failed search always gets the upstream-failure reply.
- The page discards the error thrown by `searchLocation` and `getWeatherData`. It
  shows its own fixed message instead (app/page.tsx:116-117 and 138-139), so the
  model's `Thrown` value does not reach the page state.
- The chat route, `components/Chatbot` and the chat proxy are outside this model.
- JSX markup, CSS classes, icons and image `onError` handling are left out. The
  attribution link's `utm` suffix is part of the markup.
- `toLocaleTimeString` and `toLocaleDateString` are locale library calls and are not
  modelled: sunrise and sunset times are kept as the provider's strings.
- Number-to-text conversion is modelled only for integers. `toFixed(1)` is modelled
  by its value (within 0.05), not by its digits.
- IEEE-754 rounding, `NaN` and infinities are not modelled; numbers are exact reals.
  The one exception is the hourly label of an entry without a reading, which shows
  "NaN".
- `lib/weatherCodes` (icons and descriptions by weather code) is not part of this
  model.
- `components/CurrentWeather.tsx` and `components/ForecastCard.tsx` repeat the rounded
  conversion already modelled. `components/TemperatureToggle.tsx` and
  `components/UnitSystemToggle.tsx` are buttons that call a setter with a constant.
  `app/layout.tsx` and `next.config.mjs` are configuration. None of them is modelled.
- The Unicode tables of `toLowerCase` and `trim` are not modelled. Lower-casing maps
  ASCII letters only, and whitespace is the fixed set that `trim` removes.
- TypeErrors from malformed payloads are not modelled. For example, a forecast
  payload without its `current` or `daily` object would throw; the payload types
  always carry those objects. Columns shorter than expected are modelled: they read
  `undefined`.
- The geolocation error codes compare with the constants 1, 2 and 3 of
  `GeolocationPositionError`; the error object itself is not modelled.
- The temperature and unit-system toggles are not page state in this model. Every
  display function takes the unit as an argument instead.
- TodayOverview.GetWindDirection: its own contract states only that a non-negative
  bearing gets a direction. `WindDirectionSector` gives the exact point for every
  bearing from 0° up to 382.5°, and `WindDirectionPeriodic` carries it to larger
  bearings.

## Findings

| source | as written | input that shows it | evidently intended | confidence | as-written member | corrected member |
|---|---|---|---|---|---|---|
| app/api/unsplash/route.ts:96 | on an upstream failure the status is `landscapeResponse.status \|\| portraitResponse.status` | landscape search answers 200 with no results, portrait search answers 403: the route answers the error body "Failed to fetch images from Unsplash" with status 200 | report the status of the search that failed | not executed | UnsplashRoute.PortraitFailureReportedAsOk | UnsplashRoute.UpstreamFailureStatusIsError |
| components/HourlyTemperatureCard.tsx:93 | the label's degree sign is stored as the bytes C3 82 C2 B0, a UTF-8 degree sign encoded twice | any slot with a reading, e.g. 20 °C, is labelled "20Â°" | "20°", as every other component prints | not executed | HourlyTemperatureCard.SlotLabelAsWrittenIsGarbled | HourlyTemperatureCard.SlotLabelMatchesFormatter |
