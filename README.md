# Météo PWA — a Dafny model of its decision logic

The Météo app is a small progressive web app. A user types a city. The app geocodes it, fetches a one-day forecast, shows the current conditions and the next four hours, and raises two kinds of weather alerts (rain soon, temperature above 10 °C). It sends each alert through the best notification channel it has. The app keeps a list of favorite cities, and an offline worker serves the static shell from a cache.

The project models the logic behind those features and proves what it promises:

- `text.dfy`: the string semantics the app relies on. `String.prototype.trim` uses the full ECMAScript whitespace set. `${n}` renders integers in decimal. `includes` is substring search.
- `weather.dfy`: the 22 rain codes, the 10 °C threshold, the weather-code to emoji table with its default, and `Math.round`.
- `notify.dfy`: the channel choice of `sendWeatherNotification`. The channels are the service-worker notification, the standard `Notification`, and the in-page banner fallback.
- `alerts.dfy`: the lookahead scan of `checkWeatherAlerts` as a loop over lead hours 1..4, and the notifications it sends. The scan loop is proved against the functions `RainLead`, `TempLead` and `HighTemp`. Those functions define the findings as "the least lead hour in the window that hits". The hourly-list loop of `displayWeather` is proved against `WindowSize` and `ItemAt`. The lemma `HighlightsAgreeWithFindings` ties the highlights of that list to the findings.
- `search.dfy`: `handleSearch` and `fetchWeather` as methods of a session object holding `currentCity`. The outcomes of the geocoding and weather requests are inputs.
- `favorites.dfy`: the favorites list as a store object. Adding appends only if the name is absent. Removing filters by exact name.
- `service_worker.dfy`: request routing, `networkOnly`, and `cacheFirst`. Also install (`cache.addAll`) and activate (deleting old caches). These work over a cache storage that maps a cache name to a map from request URL to response.

The following values are parameters of the model: network results, the current hour, the notification permission string, and whether a controlling worker exists. So is the state of the `Notification` global: undeclared, declared but unusable, or present. Temperatures are exact reals.

One consequence is worth knowing. `cacheFirst`'s offline fallback looks up `/index.html` at the origin root. Install only stores paths under `/Meteo/`. The app's own pages (`/Meteo/` and `/Meteo/index.html`) are cache hits and are served offline. But an offline request for any other page that is not cached misses the fallback after a clean install and gets the 503 page (`ServiceWorker.FallbackMissesAfterCleanInstall`).

## Model

| member | source | states |
|---|---|---|
| Text.TrimStart | app.js:233 | The result is a suffix of the input that does not start with whitespace, and everything dropped is whitespace |
| Text.TrimEnd | app.js:233 | The result is a prefix of the input that does not end with whitespace, and everything dropped is whitespace |
| Text.Trim | app.js:233 | `trim()` returns the slice of the input that starts where the leading whitespace ends, with only whitespace after it and no whitespace at either of its ends; it is empty exactly when the input is all whitespace |
| Text.NatToString | app.js:398 | Decimal rendering is non-empty, all digits, and has no leading zero except for 0 itself |
| Text.DecimalRoundTrip | app.js:398 | Reading the rendered digits back gives the number |
| Text.IntToString | app.js:296 | A rendered integer starts with '-' exactly when it is negative; a negative one is '-' followed by the digits of its magnitude, any other is its digits |
| Text.IntRoundTrip | app.js:296 | Reading a rendered integer back, sign included, gives the integer |
| Text.ContainsAt | service-worker.js:86-87 | A string that occurs at some position is included |
| Text.ContainsInMiddle | service-worker.js:86-87 | `p + t + s` includes `t` |
| Text.ContainsIffOccurs | service-worker.js:86-87 | `includes` holds exactly when the needle occurs at some position (both directions) |
| Weather.RainCodesListed | app.js:7 | The rain test holds exactly for the 22 listed codes |
| Weather.Emoji | app.js:418-451 | The icon shows precipitation exactly for a rain code, and every rain code has its own table entry; any code outside the table gets the default 🌤️ |
| Weather.Round | app.js:292 | `Math.round` lands within half a degree: r − 0.5 ≤ t < r + 0.5 |
| Weather.HotRoundsToAtLeastThreshold | app.js:382-386 | A temperature strictly above 10 rounds to at least 10 |
| Notify.DeliveryAttempts | app.js:148-201 | The channel choice once the support test has run. Unsupported or not "granted" goes straight to the banner. Granted with a controller tries the service worker. Granted without one tries the standard notification. A second attempt happens exactly when the first channel fails, and it is always the banner |
| Notify.DeliveredBy | app.js:148-201 | The channel that finally shows the notification, characterised by each input combination (iff per channel) |
| Notify.DeniedGoesStraightToBanner | app.js:149-153 | Permission other than "granted" gives only the banner, whatever the controller or failure inputs |
| Notify.Send | app.js:144-202 | As written: the call throws exactly when there is no `Notification` global. A declared but unusable one gets the banner, and a present one gets the channel choice |
| Notify.UndeclaredApiShowsNothing | app.js:146-153 | Without a `Notification` global the call throws, where the channel choice for an unsupported platform would give the banner |
| Alerts.FirstHit | app.js:367-389 | The first lead in a range that hits the condition: it lies in the range and hits, every earlier lead misses, and it is None exactly when no lead in the range hits |
| Alerts.FirstHitExtend | app.js:367-389 | Extending the scanned range by one lead adds that lead only when nothing earlier hit |
| Alerts.RainLead | app.js:374-380 | The rain finding is the least lead in 1..4, inside the series, whose code is a rain code; None exactly when there is none |
| Alerts.TempLead | app.js:382-387 | The least in-range lead whose temperature is strictly above 10 (equal does not fire); None exactly when there is none |
| Alerts.HighTemp | app.js:382-387 | The reported temperature is the rounded temperature of the hour of the temperature finding, is at least 10, and is present exactly when there is a finding |
| Alerts.RainIgnoresTemperatures | app.js:374-387 | The rain finding depends only on the weather codes |
| Alerts.TempIgnoresWeatherCodes | app.js:374-387 | The temperature finding depends only on the temperatures |
| Alerts.ScanHours | app.js:360-389 | The scan loop never indexes past the series and yields exactly the rain lead and the rounded first hot temperature |
| Alerts.RainMessage | app.js:398 | The rain message gives the number of hours right after its lead-in text, and that number reads back from it. It ends in " !" and has a plural 's' exactly when the lead is more than one hour |
| Alerts.TempMessage | app.js:407 | The temperature message ends with the reported temperature in parentheses, followed by °C, and that temperature reads back from it |
| Alerts.AlertNotifications | app.js:394-414 | At most one "rain" notification, first, then at most one "temp" notification, last; none when neither finding exists; every title is the city name |
| Alerts.CheckWeatherAlerts | app.js:354-415 | `checkWeatherAlerts` sends exactly the notifications of the rain and temperature findings, in that order |
| Alerts.Classify | app.js:333-338 | An hour is highlighted for rain exactly for a rain code, and for heat exactly for a hot hour without a rain code |
| Alerts.ItemAt | app.js:330-346 | An hourly item carries its hour's time stamp and that hour's weather-code icon, which shows precipitation exactly for a rain code. Its temperature is within half a degree of the hour's. Its highlight follows the rain-over-heat rule |
| Alerts.WindowSize | app.js:327-329 | The displayed window holds at most 4 hours, and a lead is shown exactly when it is inside the series |
| Alerts.HourlyItems | app.js:323-350 | The loop lists one item per in-range lead, in order, each the item of that hour (its contents are those of `Alerts.ItemAt`) |
| Alerts.HighlightsAgreeWithFindings | app.js:333-338 | The rain highlight of an hour agrees with the rain test of the scan; the rain finding's hour is highlighted for rain and the temperature finding's hour is highlighted |
| Alerts.RainInSecondHour | app.js:374-380 | Rain two hours ahead but not one hour ahead is reported as two hours away |
| Alerts.QuietWindowSendsNothing | app.js:394-414 | No rain code and no hot hour in the window means no notification |
| Search.ErrorMessage | app.js:236-281 | A transport failure shows the browser's own message, and a city that is not found is quoted in its message |
| Search.SearchNotification | app.js:292-298 | The search notification has the city as title and the tag "search". Its body starts with the current weather icon and ends with the rounded current temperature and °C, and that temperature reads back from it |
| Search.Session.FetchWeather | app.js:269-309 | `currentCity` is replaced only when the weather response is ok, and then the forecast is shown. With a `Notification` global, the "search" notification precedes the alerts. Without one, the search notification throws: the error is shown and the alerts are never checked. A failed request keeps `currentCity` and reports its error |
| Search.Session.HandleSearch | app.js:230-267 | A whitespace-only query is rejected with no request. A failed or empty geocoding answer is an error after one request. Otherwise the first match is fetched as "name, country". `currentCity` changes only after two requests and an ok forecast |
| Search.ParisFindings | app.js:367-389 | In a concrete forecast, rain first appears three hours ahead and no hour is hot |
| Search.ParisRainInThreeHours | app.js:269-309 | Any outcome that a successful search for Paris may report on that forecast sends the search notification followed by exactly "Pluie prévue dans 3 heures !" tagged "rain" |
| Favorites.Without | app.js:527-532 | Filtering by name drops exactly the entries with that name, keeps every other one, and leaves a list without the name unchanged |
| Favorites.WithoutDistributes | app.js:529 | Filtering a concatenation filters each part, so kept entries stay in their relative order |
| Favorites.WithoutKeepsUnique | app.js:527-532 | Removing keeps the names unique |
| Favorites.AddThenRemove | app.js:485-495 | Adding a new city and then removing it by name restores the list |
| Favorites.FavoritesStore.AddCurrent | app.js:485-495 | With no current city it reports an error and changes nothing. A saved name changes nothing. Otherwise the city is appended at the end. Unique names stay unique |
| Favorites.FavoritesStore.Remove | app.js:527-532 | The stored list becomes the filtered list, and unique names stay unique |
| ServiceWorker.IsApiHost | service-worker.js:85-88 | A host is an API host exactly when "open-meteo.com" or "geocoding-api" occurs in it |
| ServiceWorker.RouteOf | service-worker.js:64-82 | Non-GET requests and protocols not starting with "http" are not intercepted. API hosts go network-only. Every other intercepted request goes cache-first (iff per route) |
| ServiceWorker.OpenMeteoIsNetworkOnly | service-worker.js:85-88 | Any host containing "open-meteo.com" is routed network-only |
| ServiceWorker.AppHostsAreNetworkOnly | app.js:3-4 | Both hosts the app calls are routed network-only and never reach the cache |
| ServiceWorker.NetworkOnly | service-worker.js:92-108 | Returns the network's response whatever its status, or a 503 JSON error when the network fails; it takes no cache |
| ServiceWorker.MatchIn | service-worker.js:113 | A match returns the entry of the first cache, in creation order, that holds the key, and misses exactly when no cache holds it |
| ServiceWorker.RemoveName | service-worker.js:49 | Deleting a name leaves exactly the other names, keeps them distinct, and changes nothing when the name is absent |
| ServiceWorker.RemoveNameDistributes | service-worker.js:49 | Deleting from a concatenation deletes from each part, so the remaining names keep their creation order |
| ServiceWorker.DistinctOfOne | service-worker.js:42-51 | A distinct list of names that are all CACHE_NAME is empty or just CACHE_NAME |
| ServiceWorker.Retained | service-worker.js:42-51 | After activate only CACHE_NAME can remain, with its old contents |
| ServiceWorker.Opened | service-worker.js:25 | Opening the current cache creates it empty if missing, and leaves every other cache and its contents as they were |
| ServiceWorker.OpenedNames | service-worker.js:25 | Opening lists CACHE_NAME. Existing names keep their positions and a new CACHE_NAME goes last, so nothing else is added. The names stay consistent with the storage |
| ServiceWorker.AssetKeysDistinct | service-worker.js:3-18 | No two assets share a URL, and the offline page URL is not an asset URL |
| ServiceWorker.PutAll | service-worker.js:28 | Storing a batch keeps every earlier key and adds exactly the batch's keys |
| ServiceWorker.PutAllStoresEach | service-worker.js:28 | Storing distinct keys leaves each key holding its own response and every other entry as it was |
| ServiceWorker.FallbackMissesAfterCleanInstall | service-worker.js:134-138 | After a clean install and activate, the lookup of "/index.html" misses |
| ServiceWorker.AcceptsHtml | service-worker.js:135 | A request accepts HTML exactly when it has an Accept header in which "text/html" occurs |
| ServiceWorker.StoredMissHitsNext | service-worker.js:120-130 | A response that cacheFirst stores on a miss is what the next lookup of that URL finds |
| ServiceWorker.Worker.OpenCurrent | service-worker.js:25 | `caches.open(CACHE_NAME)` creates the cache if missing, appending its name |
| ServiceWorker.Worker.Delete | service-worker.js:49 | `caches.delete` removes the cache and its name |
| ServiceWorker.Worker.Install | service-worker.js:22-35 | Install is all-or-nothing: it succeeds exactly when every asset fetch gives a response `addAll` accepts. Then CACHE_NAME is the opened cache with exactly the asset URLs added, each holding its response. Otherwise CACHE_NAME is only opened. Names are those after opening, and other caches are untouched |
| ServiceWorker.Worker.Activate | service-worker.js:39-58 | Every cache other than CACHE_NAME is deleted, and CACHE_NAME is kept with its contents if it existed |
| ServiceWorker.Worker.CacheFirst | service-worker.js:112-146 | A hit is returned without the network and without changes. On a miss the network response is returned; an ok one opens CACHE_NAME (names included) and is stored there unless its status is 206. On network failure nothing changes, an HTML request gets the cached "/index.html" if any, and everything else gets a 503 |
| ServiceWorker.Worker.HandleFetch | service-worker.js:64-82 | Requests that are not intercepted get no response and no change. API requests get `networkOnly` and the cache is unchanged. Every other request is answered with cacheFirst's full effect on response and storage |

## Findings

| source | as written | input that shows it | evidently intended | confidence | as-written member | corrected member |
|---|---|---|---|---|---|---|
| app.js:146-153 | The first statement reads `Notification?.permission` before the support test. Optional chaining does not guard a name that is not declared, so on a browser with no `Notification` global the call throws a ReferenceError and nothing is shown | a page with no `Notification` global, the case the button labels "(iOS)" at app.js:71 | an unsupported platform gets the in-page banner, as the comment at app.js:148 says | high, not executed | Notify.Send, Notify.UndeclaredApiShowsNothing | Notify.DeliveryAttempts |

The search flow follows the code as written: `Search.Session.FetchWeather` calls for the search notification through the as-written behaviour. Without a `Notification` global, the forecast is shown and `currentCity` is committed, then the error is shown and no alert is checked.

## Left out

- DOM work is not modelled: `innerHTML` building, `classList` toggling, the loading and error banners, `requestAnimationFrame` and the 5 s / 300 ms banner timers. The error banner's text is modelled as `Search.ErrorMessage`, and the in-page banner is a channel value.
- `fetch`, `response.json()`, URL construction, `encodeURIComponent` and `new URL` parsing are not modelled. Network results arrive already decoded as inputs, and a request URL arrives already split into href, protocol and host name.
- When geocoding returns no `results` field, the model treats it as an empty list, which the source also rejects. A missing `country` is not modelled; the label always uses the given country string.
- `localStorage` and its JSON round-trip are abstracted into the favorites store's `entries` field. `loadFavorites` only renders, and is not modelled.
- `Notification.requestPermission`, `requestNotificationPermission`, `navigator.serviceWorker.register` and `ready` are not modelled. The permission string, platform support, controller presence and delivery failure are inputs.
- Notifications are returned in the order they are sent, not dispatched; the icon, badge and action options are not modelled.
- Async interleaving is not modelled: two overlapping searches, and the un-awaited `cache.put`, both race in the source. Every operation here runs to completion in order.
- Floating point is not modelled. Temperatures are exact reals, and `Math.round` is floor(t + 0.5) on reals.
- The hour label of each hourly item (`new Date(...).getHours()`) keeps the raw time string. Date parsing is not modelled.
- The clock (`new Date().getHours()`) is the parameter `currentHour`. `displayWeather` and `checkWeatherAlerts` each read the clock separately; the model gives both the same hour.
- `handleSearch` calls `showLoading`, which hides the weather section (app.js:453-456). So a failed search does not leave the previous forecast visible. Display state is not modelled, so this is not captured.
- The theme toggle, the two `DOMContentLoaded` handlers, the global error listeners and console logging are not modelled.
- `skipWaiting`, `clients.claim` and the worker's `SKIP_WAITING` message listener are not modelled; they change which worker controls the page, not what it answers.
- ServiceWorker.Worker.Install: `cache.addAll` is modelled as one update made after every fetch has settled, not as a request-by-request write.
- Response.Storable: the Cache API's other refusals (a `Vary: *` header, an opaque or error response) are not modelled; only the 206 refusal is.
- When `cache.put` refuses a 206 response in `cacheFirst`, its promise rejects without being awaited; that unhandled rejection is not modelled.
- The text of the ReferenceError shown when there is no `Notification` global belongs to the browser engine. The model uses WebKit's wording, the engine of the platform concerned.
- The comment above the fetch listener (service-worker.js:61-63) calls the strategy "network first". The code serves assets cache-first, and the model follows the code.
