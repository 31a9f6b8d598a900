/** `handleSearch` and `fetchWeather`: a search geocodes the trimmed query,
    fetches the forecast for the first match, and only then replaces the
    current city. The outcomes of the two network calls are inputs. */
module Search {
  import opened Wrappers
  import opened Text
  import opened Weather
  import opened Notify
  import opened Alerts

  /** The current city, and what the favorites list stores. */
  datatype City = City(name: string, lat: real, lon: real)

  /** One geocoding match. */
  datatype Place = Place(name: string, country: string, latitude: real, longitude: real)

  /** What a `fetch` call settles to: a rejected promise (with the browser's
      error message), a response whose `ok` is false, or an `ok` response
      with its decoded body. */
  datatype Fetched<T> = TransportFailure(message: string) | NotOk(status: int) | Received(body: T)

  datatype CurrentConditions = CurrentConditions(temperature: real, weatherCode: int)

  datatype WeatherData = WeatherData(current: CurrentConditions, hourly: Hourly)

  datatype SearchError =
    | EmptyQuery
    | Transport(message: string)
    | GeocodingFailed
    | CityNotFound(query: string)
    | WeatherFailed
    | NotificationUndefined   // the ReferenceError thrown when there is no `Notification` global

  /** The text shown in the error banner. */
  function ErrorMessage(e: SearchError): (m: string)
    ensures e.Transport? ==> m == e.message
    ensures e.CityNotFound? ==> OccursAt(m, "\"" + e.query + "\"", 6)
  {
    match e
    case EmptyQuery => "Veuillez entrer un nom de ville."
    case Transport(message) => message
    case GeocodingFailed => "Erreur de géocodage"
    case CityNotFound(query) =>
      var quoted := "\"" + query + "\"";
      var m := "Ville " + quoted + " non trouvée. Vérifiez l'orthographe.";
      assert m[6..6 + |quoted|] == quoted;
      m
    case WeatherFailed => "Erreur lors de la récupération des données météo"
    case NotificationUndefined => "Can't find variable: Notification"
  }

  /** What `displayWeather` shows: the city, the rounded current temperature,
      its icon, and the hourly list. */
  datatype WeatherView = WeatherView(cityName: string, temperature: int, icon: Icon, hourly: seq<HourlyItem>)

  datatype SearchOutcome =
    | Rejected(error: SearchError)                            // refused before any request
    | Failed(error: SearchError)                              // a request failed; the error is shown
    | Shown(view: WeatherView, sent: seq<Notification>)       // the forecast is displayed
    | ShownThenFailed(view: WeatherView, error: SearchError)  // displayed, then a later step threw

  /** `${location.name}, ${location.country}`. */
  function CityLabel(p: Place): (r: string)
    ensures |r| == |p.name| + 2 + |p.country|
    ensures r[..|p.name|] == p.name && r[|p.name|..|p.name| + 2] == ", "
    ensures r[|p.name| + 2..] == p.country
  {
    p.name + ", " + p.country
  }

  /** The notification sent on every successful fetch, tagged "search". */
  function SearchNotification(cityName: string, current: CurrentConditions): (n: Notification)
    ensures n.title == cityName && n.tag == "search"
    ensures IconText(Emoji(current.weatherCode)) <= n.body
    ensures var digits := IntToString(Round(current.temperature));
      && |n.body| >= |digits| + 2 && n.body[|n.body| - 2..] == "°C"
      && SignedValue(n.body[|n.body| - 2 - |digits|..|n.body| - 2]) == Round(current.temperature)
  {
    IntRoundTrip(Round(current.temperature));
    Notification(cityName,
      IconText(Emoji(current.weatherCode)) + " Température actuelle: " + IntToString(Round(current.temperature)) + "°C",
      "search")
  }

  /** The forecast view shown for `cityName`: the rounded current
      temperature, its icon, and the hourly list. */
  ghost predicate ShowsForecast(view: WeatherView, cityName: string, data: WeatherData, currentHour: nat)
  {
    && view.cityName == cityName
    && view.temperature == Round(data.current.temperature)
    && view.icon == Emoji(data.current.weatherCode)
    && |view.hourly| == WindowSize(data.hourly, currentHour)
    && (forall k :: 0 <= k < |view.hourly| ==>
          currentHour + k + 1 < |data.hourly.time| && view.hourly[k] == ItemAt(data.hourly, currentHour + k + 1))
  }

  /** The outcome of a successful fetch: the forecast of `data` is shown for
      `cityName`. With a `Notification` global, the search notification is
      sent before the alerts; without one, the search notification throws,
      the error is shown, and the alerts are never checked. */
  ghost predicate DisplaysWeather(o: SearchOutcome, cityName: string, data: WeatherData, currentHour: nat,
                                  api: NotificationApi)
  {
    && (o.Shown? || o.ShownThenFailed?)
    && ShowsForecast(o.view, cityName, data, currentHour)
    && (o.ShownThenFailed? <==> api == Undeclared)
    && (o.ShownThenFailed? ==> o.error == NotificationUndefined)
    && (o.Shown? ==>
          o.sent == [SearchNotification(cityName, data.current)]
                    + AlertNotifications(cityName, RainLead(data.hourly, currentHour), HighTemp(data.hourly, currentHour)))
  }

  /** The page's search state: the global `currentCity`. */
  class Session {
    var currentCity: Option<City>

    constructor ()
      ensures currentCity == None
    {
      currentCity := None;
    }

    /** `fetchWeather(lat, lon, cityName)`, also reached by clicking a
        favorite. The current city is replaced only once an `ok` response
        has arrived; a failed request leaves it as it was. */
    method FetchWeather(lat: real, lon: real, cityName: string, response: Fetched<WeatherData>, currentHour: nat,
                        api: NotificationApi)
      returns (outcome: SearchOutcome)
      modifies this
      ensures response.Received? ==> currentCity == Some(City(cityName, lat, lon))
      ensures response.Received? ==> DisplaysWeather(outcome, cityName, response.body, currentHour, api)
      ensures !response.Received? ==> currentCity == old(currentCity)
      ensures response.TransportFailure? ==> outcome == Failed(Transport(response.message))
      ensures response.NotOk? ==> outcome == Failed(WeatherFailed)
    {
      match response {
        case TransportFailure(message) =>
          outcome := Failed(Transport(message));
        case NotOk(_) =>
          outcome := Failed(WeatherFailed);
        case Received(data) =>
          currentCity := Some(City(cityName, lat, lon));
          var items := HourlyItems(data.hourly, currentHour);
          var view := WeatherView(cityName, Round(data.current.temperature), Emoji(data.current.weatherCode), items);
          if api == Undeclared {
            outcome := ShownThenFailed(view, NotificationUndefined);
          } else {
            var alerts := CheckWeatherAlerts(data.hourly, currentHour, cityName);
            outcome := Shown(view, [SearchNotification(cityName, data.current)] + alerts);
          }
      }
    }

    /** `handleSearch`: an empty or all-whitespace query is refused without a
        request; a failed or empty geocoding answer ends the search before the
        forecast is requested; otherwise the first match is fetched under the
        label "name, country". `requests` counts the network calls made. */
    method HandleSearch(input: string, geo: Fetched<seq<Place>>, weather: Fetched<WeatherData>, currentHour: nat,
                        api: NotificationApi)
      returns (outcome: SearchOutcome, requests: nat)
      modifies this
      ensures AllWhitespace(input) ==> outcome == Rejected(EmptyQuery) && requests == 0
      ensures !AllWhitespace(input) && geo.TransportFailure? ==> outcome == Failed(Transport(geo.message)) && requests == 1
      ensures !AllWhitespace(input) && geo.NotOk? ==> outcome == Failed(GeocodingFailed) && requests == 1
      ensures !AllWhitespace(input) && geo.Received? && geo.body == [] ==>
        outcome == Failed(CityNotFound(Trim(input))) && requests == 1
      ensures !AllWhitespace(input) && geo.Received? && geo.body != [] ==>
        var p := geo.body[0];
        && requests == 2
        && (weather.Received? ==>
              currentCity == Some(City(CityLabel(p), p.latitude, p.longitude))
              && DisplaysWeather(outcome, CityLabel(p), weather.body, currentHour, api))
        && (weather.TransportFailure? ==> outcome == Failed(Transport(weather.message)))
        && (weather.NotOk? ==> outcome == Failed(WeatherFailed))
      ensures currentCity != old(currentCity) ==> weather.Received? && requests == 2
    {
      var query := Trim(input);
      if query == [] {
        return Rejected(EmptyQuery), 0;
      }
      requests := 1;
      match geo {
        case TransportFailure(message) =>
          outcome := Failed(Transport(message));
        case NotOk(_) =>
          outcome := Failed(GeocodingFailed);
        case Received(results) =>
          if results == [] {
            outcome := Failed(CityNotFound(query));
          } else {
            var location := results[0];
            requests := 2;
            outcome := FetchWeather(location.latitude, location.longitude, CityLabel(location), weather, currentHour, api);
          }
      }
    }
  }

  /** A search for "Paris" whose forecast has its first rain code three hours
      ahead and no hour above the threshold, on a page with a `Notification`
      global: any outcome `HandleSearch` may report for it once the forecast
      arrives sends the search notification followed by exactly one alert,
      for rain in three hours. */
  lemma ParisRainInThreeHours(o: SearchOutcome, current: CurrentConditions)
    requires
      var h: Hourly := HourlySeries(["00:00", "01:00", "02:00", "03:00", "04:00"],
                                    [4.0, 5.0, 6.0, 7.0, 8.0], [0, 1, 2, 61, 3]);
      DisplaysWeather(o, CityLabel(Place("Paris", "France", 48.85, 2.35)), WeatherData(current, h), 0, Present)
    ensures o.Shown?
    ensures o.sent == [SearchNotification("Paris, France", current), Notification("Paris, France", RainMessage(3), "rain")]
  {
    ParisLabel();
    ParisFindings();
    RainOnlyAlerts("Paris, France", 3);
  }

  lemma ParisLabel()
    ensures CityLabel(Place("Paris", "France", 48.85, 2.35)) == "Paris, France"
  {
  }

  lemma RainOnlyAlerts(city: string, lead: nat)
    ensures AlertNotifications(city, Some(lead), None) == [Notification(city, RainMessage(lead), "rain")]
  {
  }

  /** The findings of the Paris forecast: rain three hours ahead, no hot hour. */
  lemma ParisFindings()
    ensures
      var h: Hourly := HourlySeries(["00:00", "01:00", "02:00", "03:00", "04:00"],
                                    [4.0, 5.0, 6.0, 7.0, 8.0], [0, 1, 2, 61, 3]);
      RainLead(h, 0) == Some(3) && HighTemp(h, 0) == None
  {
    var h: Hourly := HourlySeries(["00:00", "01:00", "02:00", "03:00", "04:00"],
                                  [4.0, 5.0, 6.0, 7.0, 8.0], [0, 1, 2, 61, 3]);
    assert !Hits(h, 0, Rainy, 1) && !Hits(h, 0, Rainy, 2) && Hits(h, 0, Rainy, 3);
    assert RainLead(h, 0) == Some(3);
    forall l: nat | InWindow(h, 0, l)
      ensures !Hits(h, 0, Hot, l)
    {
      assert h.temperature[l] <= 10.0;
    }
    assert TempLead(h, 0) == None;
  }
}
