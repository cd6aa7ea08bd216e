/**
  * The OpenWeatherMap client: validation of the key and the city, the
  * mapping of HTTP statuses and thrown values to typed errors, the shaping
  * of the current-weather reply, the hourly and daily forecast built from
  * the three-hourly list, the provider's 1-5 pollution index read on the
  * 0-500 scale, and the keyword classifier of a condition text.
  *
  * Every reply is a parameter (`Http<B>` from `Js`); the locale-dependent
  * date key, hour label and weekday name are parameters too.
  */
module WeatherApi {
  import opened Js
  import opened Text

  // ---------------------------------------------------------------------
  // Errors
  // ---------------------------------------------------------------------

  /** The `code` strings a `WeatherAPIError` carries. */
  datatype ErrorCode =
    | MissingApiKey | InvalidCity | InvalidApiKey | CityNotFound | RateLimit
    | ApiError | InvalidResponse | NetworkError | UnknownError

  /** `WeatherAPIError(message, statusCode?, code)`. */
  datatype WeatherApiError = WeatherApiError(message: string, statusCode: Option<int>, code: ErrorCode)

  /** A resolved promise with a value, or a rejected one with a `WeatherAPIError`. */
  datatype Result<T> = Ok(value: T) | Err(error: WeatherApiError)

  /** What the `catch` block receives: an error thrown by this client, or anything else. */
  datatype Caught = Raised(error: WeatherApiError) | Foreign(exception: Exception)

  const MissingKeyMessage := "API key is missing. Please configure your OpenWeatherMap API key in Settings or .env file."
  const InvalidKeyMessage := "Invalid API key. Please check your OpenWeatherMap API key in Settings."
  const RateLimitMessage := "API rate limit exceeded. Please try again later."
  const NetworkMessage := "Network error. Please check your internet connection."
  const UnknownWeatherMessage := "Unknown error occurred while fetching weather data."
  const UnknownForecastMessage := "Unknown error occurred while fetching forecast data."

  /** The error both fetchers raise for a blank key, before any request. */
  const MissingKey := WeatherApiError(MissingKeyMessage, None, MissingApiKey)

  /**
    * The `catch` block: an error of this client passes through unchanged,
    * a `TypeError` whose message mentions 'fetch' becomes a network error,
    * and anything else an unknown error that keeps the thrown message
    * (`fallback` when what was thrown is not an `Error`).
    */
  function NormalizeError(c: Caught, fallback: string): (e: WeatherApiError)
    ensures c.Raised? ==> e == c.error
    ensures c.Foreign? ==> e.statusCode == None && (e.code == NetworkError || e.code == UnknownError)
    ensures c.Foreign? ==> (e.code == NetworkError <==> c.exception.TypeError? && Contains(c.exception.message, "fetch"))
    ensures c.Foreign? && e.code == UnknownError ==>
      e.message == (if c.exception.NonError? then fallback else c.exception.message)
  {
    match c
    case Raised(err) => err
    case Foreign(TypeError(m)) =>
      if Contains(m, "fetch") then WeatherApiError(NetworkMessage, None, NetworkError)
      else WeatherApiError(m, None, UnknownError)
    case Foreign(Error(m)) => WeatherApiError(m, None, UnknownError)
    case Foreign(NonError) => WeatherApiError(fallback, None, UnknownError)
  }

  /** Normalising a normalised error changes nothing: the `catch` block is idempotent. */
  lemma NormalizeIdempotent(c: Caught, fallback: string)
    ensures NormalizeError(Raised(NormalizeError(c, fallback)), fallback) == NormalizeError(c, fallback)
  {
  }

  /** `errorData.message || fallback`: an absent or empty message gives way. */
  function MessageOr(errorMessage: Option<string>, fallback: string): (m: string)
    ensures m == fallback || (errorMessage.Some? && m == errorMessage.value && m != "")
    ensures errorMessage.Some? && errorMessage.value != "" ==> m == errorMessage.value
  {
    if errorMessage.Some? && errorMessage.value != "" then errorMessage.value else fallback
  }

  /** The error for a non-ok status of the current-weather request. */
  function CurrentStatusError(city: string, status: int, statusText: string, errorMessage: Option<string>): (e: WeatherApiError)
    ensures e.statusCode == Some(status)
    ensures e.code == (if status == 401 then InvalidApiKey else if status == 404 then CityNotFound
      else if status == 429 then RateLimit else ApiError)
    ensures status == 404 ==> Contains(e.message, city)
  {
    if status == 401 then WeatherApiError(InvalidKeyMessage, Some(401), InvalidApiKey)
    else if status == 404 then
      var m := "City \"" + city + "\" not found. Please check the city name and try again.";
      assert OccursAt(m, city, 6);
      WeatherApiError(m, Some(404), CityNotFound)
    else if status == 429 then WeatherApiError(RateLimitMessage, Some(429), RateLimit)
    else WeatherApiError(MessageOr(errorMessage, "Failed to fetch weather data: " + statusText), Some(status), ApiError)
  }

  /** The error for a non-ok status of the forecast request: only 401 and 429 are singled out. */
  function ForecastStatusError(status: int, statusText: string, errorMessage: Option<string>): (e: WeatherApiError)
    ensures e.statusCode == Some(status)
    ensures e.code == (if status == 401 then InvalidApiKey else if status == 429 then RateLimit else ApiError)
  {
    if status == 401 then WeatherApiError(InvalidKeyMessage, Some(401), InvalidApiKey)
    else if status == 429 then WeatherApiError(RateLimitMessage, Some(429), RateLimit)
    else WeatherApiError(MessageOr(errorMessage, "Failed to fetch forecast data: " + statusText), Some(status), ApiError)
  }

  /** The two status tables agree on every status but 404, which the forecast request reports as a plain API error. */
  lemma StatusTablesDiffer(city: string, status: int, statusText: string, errorMessage: Option<string>)
    ensures var c := CurrentStatusError(city, status, statusText, errorMessage);
      var f := ForecastStatusError(status, statusText, errorMessage);
      (c.code == f.code <==> status != 404) && c.statusCode == f.statusCode &&
      (status == 404 ==> f.code == ApiError)
  {
  }

  // ---------------------------------------------------------------------
  // Current weather
  // ---------------------------------------------------------------------

  datatype MainReading = MainReading(temp: real, feelsLike: real, humidity: real, pressure: real)

  /** One entry of the reply's `weather` array. */
  datatype Conditions = Conditions(main: string, description: string, icon: string)

  datatype Coord = Coord(lat: real, lon: real)

  /**
    * The parsed current-weather reply. Any block may be missing: `sys`
    * stands for the block through its `country`, `wind` for `wind.speed`.
    */
  datatype CurrentBody = CurrentBody(
    name: Option<string>,
    main: Option<MainReading>,
    weather: Option<seq<Conditions>>,
    sys: Option<string>,
    wind: Option<real>,
    coord: Option<Coord>)

  /** `WeatherData`; `aqi` is attached later by the load pipeline. */
  datatype WeatherData = WeatherData(
    city: string,
    country: string,
    temperature: int,
    feelsLike: int,
    condition: string,
    description: string,
    humidity: real,
    wind: int,
    pressure: real,
    icon: string,
    aqi: Option<int>,
    lat: real,
    lon: real)

  /** The shape check: a non-empty name, a `main` block and a first `weather` entry. */
  predicate ValidCurrent(b: CurrentBody) {
    b.name.Some? && b.name.value != "" && b.main.Some? && b.weather.Some? && |b.weather.value| > 0
  }

  /** The blocks the record reads without checking them: `sys`, `wind` and `coord`. */
  predicate HasBlocks(b: CurrentBody) {
    b.sys.Some? && b.wind.Some? && b.coord.Some?
  }

  /** The property the record reads first from a missing block, in the order the record is built. */
  function MissingProperty(b: CurrentBody): string {
    if b.sys.None? then "country" else if b.wind.None? then "speed" else "lat"
  }

  /**
    * The `TypeError` a read through a missing block raises (the wording is
    * that of the V8 engine). It never mentions 'fetch', so the `catch`
    * block turns it into an unknown error.
    */
  function MissingBlockError(b: CurrentBody): (e: Exception)
    ensures e.TypeError? && !Contains(e.message, "fetch")
  {
    var words := ["Cannot read ", "properties ", "of undefined ", "(reading '", MissingProperty(b), "')"];
    var m := words[0] + words[1] + words[2] + words[3] + words[4] + words[5];
    assert forall w :: w in words ==> 'h' !in w;
    MissingChar(m, "fetch", 'h');
    TypeError(m)
  }

  /** The record built from a reply that passed the shape check and has every block it reads. */
  function ToWeatherData(b: CurrentBody): (w: WeatherData)
    requires ValidCurrent(b) && HasBlocks(b)
    ensures var m := b.main.value;
      m.temp - 0.5 < w.temperature as real <= m.temp + 0.5 &&
      m.feelsLike - 0.5 < w.feelsLike as real <= m.feelsLike + 0.5 &&
      b.wind.value - 0.5 < w.wind as real <= b.wind.value + 0.5
    ensures var c := b.weather.value[0];
      w.city == b.name.value && w.country == b.sys.value &&
      w.condition == c.main && w.description == c.description && w.icon == c.icon &&
      w.humidity == b.main.value.humidity && w.pressure == b.main.value.pressure &&
      w.lat == b.coord.value.lat && w.lon == b.coord.value.lon && w.aqi == None
  {
    var m := b.main.value;
    var c := b.weather.value[0];
    WeatherData(b.name.value, b.sys.value, Round(m.temp), Round(m.feelsLike), c.main, c.description,
      m.humidity, Round(b.wind.value), m.pressure, c.icon, None, b.coord.value.lat, b.coord.value.lon)
  }

  /**
    * `fetchWeatherData(city, apiKey)` with the reply `resp` of its single
    * request. The `units` argument only selects the scale the provider
    * answers in, so the reply already carries it.
    */
  function FetchWeatherData(city: string, apiKey: string, resp: Http<CurrentBody>): (r: Result<WeatherData>)
    ensures IsBlank(apiKey) ==> r == Err(MissingKey)
    ensures !IsBlank(apiKey) && IsBlank(city) ==> r.Err? && r.error.code == InvalidCity && r.error.statusCode == None
    ensures r.Ok? ==>
      resp.Replied? && IsOk(resp.status) && ValidCurrent(resp.body) && HasBlocks(resp.body) &&
      r.value == ToWeatherData(resp.body)
    ensures !IsBlank(apiKey) && !IsBlank(city) && resp.Replied? && !IsOk(resp.status) ==>
      r == Err(CurrentStatusError(city, resp.status, resp.statusText, resp.errorMessage))
    ensures !IsBlank(apiKey) && !IsBlank(city) && resp.Replied? && IsOk(resp.status) && !ValidCurrent(resp.body) ==>
      r.Err? && r.error.code == InvalidResponse
    ensures !IsBlank(apiKey) && !IsBlank(city) && resp.Replied? && IsOk(resp.status) &&
            ValidCurrent(resp.body) && !HasBlocks(resp.body) ==>
      r == Err(WeatherApiError(MissingBlockError(resp.body).message, None, UnknownError))
    ensures !IsBlank(apiKey) && !IsBlank(city) && resp.Threw? ==>
      r == Err(NormalizeError(Foreign(resp.exception), UnknownWeatherMessage))
  {
    if IsBlank(apiKey) then Err(MissingKey)
    else if IsBlank(city) then Err(WeatherApiError("City name is required.", None, InvalidCity))
    else match resp
      case Threw(exc) => Err(NormalizeError(Foreign(exc), UnknownWeatherMessage))
      case Replied(status, statusText, errorMessage, body) =>
        if !IsOk(status) then Err(CurrentStatusError(city, status, statusText, errorMessage))
        else if !ValidCurrent(body) then
          Err(WeatherApiError("Invalid response from weather API.", None, InvalidResponse))
        else if !HasBlocks(body) then Err(NormalizeError(Foreign(MissingBlockError(body)), UnknownWeatherMessage))
        else Ok(ToWeatherData(body))
  }

  /** A blank key or city is rejected whatever the reply would have been: no request is made. */
  lemma ValidationBeforeRequest(city: string, apiKey: string, resp1: Http<CurrentBody>, resp2: Http<CurrentBody>)
    requires IsBlank(apiKey) || IsBlank(city)
    ensures FetchWeatherData(city, apiKey, resp1) == FetchWeatherData(city, apiKey, resp2)
    ensures FetchWeatherData(city, apiKey, resp1).Err?
  {
  }

  /** Every failure of the current-weather call is a typed error; a status error carries its status. */
  lemma CurrentErrorsCarryStatus(city: string, apiKey: string, resp: Http<CurrentBody>)
    requires FetchWeatherData(city, apiKey, resp).Err?
    ensures var e := FetchWeatherData(city, apiKey, resp).error;
      e.statusCode.Some? <==> (!IsBlank(apiKey) && !IsBlank(city) && resp.Replied? && !IsOk(resp.status))
  {
  }

  // ---------------------------------------------------------------------
  // Forecast
  // ---------------------------------------------------------------------

  /** One entry of the three-hourly list: its time, `main` values, first `weather` entry and wind. */
  datatype ForecastItem = ForecastItem(dt: int, temp: real, humidity: real, main: string, icon: string, windSpeed: real)

  /** The parsed forecast reply: `list`, None when missing or not an array. */
  datatype ForecastBody = ForecastBody(list: Option<seq<ForecastItem>>)

  datatype HourlyForecast = HourlyForecast(time: string, temp: int, icon: string)

  datatype ForecastDay = ForecastDay(
    date: string, temp: int, tempMin: int, tempMax: int,
    condition: string, icon: string, humidity: real, wind: int)

  datatype Forecast = Forecast(daily: seq<ForecastDay>, hourly: seq<HourlyForecast>)

  const HourlySlots := 8
  const MaxDays := 7

  /** The hourly strip: the first eight entries, each with its hour label and rounded temperature. */
  function Hourly(items: seq<ForecastItem>, timeLabel: int -> string): (h: seq<HourlyForecast>)
    ensures |h| == if |items| < HourlySlots then |items| else HourlySlots
    ensures forall i :: 0 <= i < |h| ==>
      h[i].time == timeLabel(items[i].dt) && h[i].icon == items[i].icon &&
      items[i].temp - 0.5 < h[i].temp as real <= items[i].temp + 0.5
  {
    var first := Take(items, HourlySlots);
    seq(|first|, i requires 0 <= i < |first| =>
      HourlyForecast(timeLabel(first[i].dt), Round(first[i].temp), first[i].icon))
  }

  /** The distinct date keys of the list, in order of first appearance (the keys of the filled `Map`). */
  function DateKeys(items: seq<ForecastItem>, dateKey: int -> string): seq<string>
  {
    if items == [] then []
    else
      var ks := DateKeys(items[..|items| - 1], dateKey);
      var k := dateKey(items[|items| - 1].dt);
      if k in ks then ks else ks + [k]
  }

  /** The entries whose date key is k, in list order (the array the `Map` holds for k). */
  function DayItems(items: seq<ForecastItem>, dateKey: int -> string, k: string): seq<ForecastItem>
  {
    if items == [] then []
    else
      var last := items[|items| - 1];
      DayItems(items[..|items| - 1], dateKey, k) + (if dateKey(last.dt) == k then [last] else [])
  }

  /** No date key is listed twice. */
  lemma {:induction false} DateKeysDistinct(items: seq<ForecastItem>, dateKey: int -> string)
    ensures Distinct(DateKeys(items, dateKey))
  {
    if items != [] {
      var ks := DateKeys(items[..|items| - 1], dateKey);
      var k := dateKey(items[|items| - 1].dt);
      DateKeysDistinct(items[..|items| - 1], dateKey);
      if k !in ks {
        var r := ks + [k];
        forall i, j | 0 <= i < j < |r|
          ensures r[i] != r[j]
        {
          if j == |ks| {
            assert r[i] == ks[i] && ks[i] in ks && r[j] == k;
          } else {
            assert r[i] == ks[i] && r[j] == ks[j];
          }
        }
        assert DateKeys(items, dateKey) == r;
      }
    }
  }

  /** A key is listed exactly when some entry has it. */
  lemma {:induction false} DateKeysComplete(items: seq<ForecastItem>, dateKey: int -> string, k: string)
    ensures k in DateKeys(items, dateKey) <==> exists j :: 0 <= j < |items| && dateKey(items[j].dt) == k
  {
    if items != [] {
      var init := items[..|items| - 1];
      DateKeysComplete(init, dateKey, k);
      if exists j :: 0 <= j < |init| && dateKey(init[j].dt) == k {
        var j :| 0 <= j < |init| && dateKey(init[j].dt) == k;
        assert dateKey(items[j].dt) == k;
      }
      if j :| 0 <= j < |items| && dateKey(items[j].dt) == k {
        if j < |init| {
          assert dateKey(init[j].dt) == k;
        }
      }
    }
  }

  /**
    * Keys are listed in order of first appearance: the entry that put key
    * i in the list comes before every entry with a later key j.
    */
  lemma {:induction false} DateKeysInOrder(items: seq<ForecastItem>, dateKey: int -> string, i: nat, j: nat)
    requires i < j < |DateKeys(items, dateKey)|
    ensures var ks := DateKeys(items, dateKey);
      exists p :: 0 <= p < |items| && dateKey(items[p].dt) == ks[i] &&
        forall q :: 0 <= q <= p ==> dateKey(items[q].dt) != ks[j]
  {
    var init := items[..|items| - 1];
    var prev := DateKeys(init, dateKey);
    var ks := DateKeys(items, dateKey);
    assert prev <= ks;
    if j < |prev| {
      DateKeysInOrder(init, dateKey, i, j);
      var p :| 0 <= p < |init| && dateKey(init[p].dt) == prev[i] &&
        forall q :: 0 <= q <= p ==> dateKey(init[q].dt) != prev[j];
      assert dateKey(items[p].dt) == ks[i];
      forall q | 0 <= q <= p
        ensures dateKey(items[q].dt) != ks[j]
      {
        assert items[q] == init[q];
      }
    } else {
      assert ks[j] == dateKey(items[|items| - 1].dt) && ks[j] !in prev;
      DateKeysComplete(init, dateKey, ks[i]);
      var p :| 0 <= p < |init| && dateKey(init[p].dt) == ks[i];
      assert dateKey(items[p].dt) == ks[i];
      forall q | 0 <= q <= p
        ensures dateKey(items[q].dt) != ks[j]
      {
        DateKeysComplete(init, dateKey, dateKey(init[q].dt));
        assert items[q] == init[q];
      }
    }
  }

  /** A day's group is non-empty exactly for the listed keys, and holds only entries with that key. */
  lemma {:induction false} DayItemsFacts(items: seq<ForecastItem>, dateKey: int -> string, k: string)
    ensures DayItems(items, dateKey, k) != [] <==> k in DateKeys(items, dateKey)
    ensures forall it :: it in DayItems(items, dateKey, k) ==> dateKey(it.dt) == k && it in items
  {
    if items != [] {
      var init := items[..|items| - 1];
      DayItemsFacts(init, dateKey, k);
    }
  }

  /** Every entry lands in the group of its own date key. */
  lemma {:induction false} EntryInItsDay(items: seq<ForecastItem>, dateKey: int -> string, j: nat)
    requires j < |items|
    ensures items[j] in DayItems(items, dateKey, dateKey(items[j].dt))
  {
    var init := items[..|items| - 1];
    if j < |init| {
      EntryInItsDay(init, dateKey, j);
      assert init[j] == items[j];
    }
  }

  /** The temperatures of a day's entries. */
  function Temps(items: seq<ForecastItem>): (ts: seq<real>)
    ensures |ts| == |items| && forall i :: 0 <= i < |items| ==> ts[i] == items[i].temp
  {
    seq(|items|, i requires 0 <= i < |items| => items[i].temp)
  }

  /**
    * One day's summary: the rounded mean, minimum and maximum temperature,
    * and the middle entry's condition, icon, humidity and wind.
    */
  function Summarize(date: string, items: seq<ForecastItem>): (d: ForecastDay)
    requires items != []
    ensures d.tempMin <= d.temp <= d.tempMax
    ensures exists i :: 0 <= i < |items| && d.tempMin == Round(items[i].temp)
    ensures exists i :: 0 <= i < |items| && d.tempMax == Round(items[i].temp)
    ensures forall i :: 0 <= i < |items| ==> d.tempMin <= Round(items[i].temp) <= d.tempMax
    ensures d.temp == Round(Sum(Temps(items)) / |items| as real)
    ensures var mid := items[|items| / 2];
      d.date == date && d.condition == mid.main && d.icon == mid.icon &&
      d.humidity == mid.humidity && d.wind == Round(mid.windSpeed)
  {
    var ts := Temps(items);
    var mean := Sum(ts) / |ts| as real;
    MeanBetween(ts);
    RoundMonotone(Min(ts), mean);
    RoundMonotone(mean, Max(ts));
    forall i | 0 <= i < |items|
      ensures Round(Min(ts)) <= Round(items[i].temp) <= Round(Max(ts))
    {
      RoundMonotone(Min(ts), ts[i]);
      RoundMonotone(ts[i], Max(ts));
    }
    var mid := items[|items| / 2];
    ForecastDay(date, Round(mean), Round(Min(ts)), Round(Max(ts)), mid.main, mid.icon, mid.humidity, Round(mid.windSpeed))
  }

  /** The row of one date key: its entries summarised under the key's weekday name. */
  function DayRow(items: seq<ForecastItem>, dateKey: int -> string, weekday: string -> string, k: string): (d: ForecastDay)
    requires DayItems(items, dateKey, k) != []
    ensures d.date == weekday(k) && d.tempMin <= d.temp <= d.tempMax
  {
    Summarize(weekday(k), DayItems(items, dateKey, k))
  }

  /** Every date key kept has at least one entry. */
  lemma KeptDaysNonEmpty(items: seq<ForecastItem>, dateKey: int -> string)
    ensures forall k :: k in Take(DateKeys(items, dateKey), MaxDays) ==> DayItems(items, dateKey, k) != []
  {
    forall k | k in Take(DateKeys(items, dateKey), MaxDays)
      ensures DayItems(items, dateKey, k) != []
    {
      DayItemsFacts(items, dateKey, k);
    }
  }

  /** The rows of the given date keys, in order. */
  function DaysOf(items: seq<ForecastItem>, dateKey: int -> string, weekday: string -> string, ks: seq<string>): (days: seq<ForecastDay>)
    requires forall k :: k in ks ==> DayItems(items, dateKey, k) != []
    ensures |days| == |ks|
  {
    if ks == [] then []
    else
      assert forall k :: k in ks[..|ks| - 1] ==> k in ks;
      DaysOf(items, dateKey, weekday, ks[..|ks| - 1]) + [DayRow(items, dateKey, weekday, ks[|ks| - 1])]
  }

  /** The i-th row is the row of the i-th key. */
  lemma {:induction false} DaysOfRows(items: seq<ForecastItem>, dateKey: int -> string, weekday: string -> string, ks: seq<string>)
    requires forall k :: k in ks ==> DayItems(items, dateKey, k) != []
    ensures forall i :: 0 <= i < |ks| ==> DaysOf(items, dateKey, weekday, ks)[i] == DayRow(items, dateKey, weekday, ks[i])
  {
    if ks != [] {
      var init := ks[..|ks| - 1];
      assert forall k :: k in init ==> k in ks;
      DaysOfRows(items, dateKey, weekday, init);
      var days := DaysOf(items, dateKey, weekday, ks);
      assert days == DaysOf(items, dateKey, weekday, init) + [DayRow(items, dateKey, weekday, ks[|ks| - 1])];
      forall i | 0 <= i < |ks|
        ensures days[i] == DayRow(items, dateKey, weekday, ks[i])
      {
        if i < |init| {
          assert ks[i] == init[i];
        }
      }
    }
  }

  /** The daily rows: the first seven date keys, each summarised under its weekday name. */
  function Daily(items: seq<ForecastItem>, dateKey: int -> string, weekday: string -> string): (days: seq<ForecastDay>)
    ensures |days| <= MaxDays
    ensures var ks := DateKeys(items, dateKey);
      |days| == (if |ks| < MaxDays then |ks| else MaxDays) &&
      forall i :: 0 <= i < |days| ==> days[i].date == weekday(ks[i]) && days[i].tempMin <= days[i].temp <= days[i].tempMax
  {
    KeptDaysNonEmpty(items, dateKey);
    DaysOfRows(items, dateKey, weekday, Take(DateKeys(items, dateKey), MaxDays));
    DaysOf(items, dateKey, weekday, Take(DateKeys(items, dateKey), MaxDays))
  }

  /** The whole of `fetchForecast` on given replies, as one value. */
  function ForecastOf(city: string, apiKey: string, current: Http<CurrentBody>, resp: Http<ForecastBody>,
                      dateKey: int -> string, timeLabel: int -> string, weekday: string -> string): Result<Forecast>
  {
    if IsBlank(apiKey) then Err(MissingKey)
    else match FetchWeatherData(city, apiKey, current)
      case Err(e) => Err(e)
      case Ok(_) =>
        match resp
        case Threw(exc) => Err(NormalizeError(Foreign(exc), UnknownForecastMessage))
        case Replied(status, statusText, errorMessage, body) =>
          if !IsOk(status) then Err(ForecastStatusError(status, statusText, errorMessage))
          else if body.list.None? then
            Err(WeatherApiError("Invalid forecast response from API.", None, InvalidResponse))
          else Ok(Forecast(Daily(body.list.value, dateKey, weekday), Hourly(body.list.value, timeLabel)))
  }

  /**
    * The `forEach` that fills the day map: keys in insertion order and,
    * for each key, the entries pushed under it.
    */
  method GroupByDate(items: seq<ForecastItem>, dateKey: int -> string) returns (keys: seq<string>, groups: map<string, seq<ForecastItem>>)
    ensures keys == DateKeys(items, dateKey)
    ensures forall k :: k in groups <==> k in keys
    ensures forall k :: k in groups ==> groups[k] == DayItems(items, dateKey, k)
  {
    keys := [];
    groups := map[];
    var i := 0;
    while i < |items|
      invariant 0 <= i <= |items|
      invariant keys == DateKeys(items[..i], dateKey)
      invariant forall k :: k in groups <==> k in keys
      invariant forall k :: k in groups ==> groups[k] == DayItems(items[..i], dateKey, k)
    {
      var item := items[i];
      var date := dateKey(item.dt);
      assert items[..i + 1][..i] == items[..i];
      if date !in groups {
        DayItemsFacts(items[..i], dateKey, date);
        groups := groups[date := []];
        keys := keys + [date];
      }
      groups := groups[date := groups[date] + [item]];
      i := i + 1;
    }
    assert items[..|items|] == items;
  }

  /**
    * `fetchForecast`: the key check, the current-weather call (whose
    * errors pass through unchanged), the forecast request, and the hourly
    * and daily rows built by grouping the list.
    */
  method FetchForecast(city: string, apiKey: string, current: Http<CurrentBody>, resp: Http<ForecastBody>,
                       dateKey: int -> string, timeLabel: int -> string, weekday: string -> string)
    returns (r: Result<Forecast>)
    ensures r == ForecastOf(city, apiKey, current, resp, dateKey, timeLabel, weekday)
  {
    if IsBlank(apiKey) {
      return Err(MissingKey);
    }
    var weather := FetchWeatherData(city, apiKey, current);
    if weather.Err? {
      return Err(weather.error);
    }
    if resp.Threw? {
      return Err(NormalizeError(Foreign(resp.exception), UnknownForecastMessage));
    }
    if !IsOk(resp.status) {
      return Err(ForecastStatusError(resp.status, resp.statusText, resp.errorMessage));
    }
    if resp.body.list.None? {
      return Err(WeatherApiError("Invalid forecast response from API.", None, InvalidResponse));
    }
    var list := resp.body.list.value;
    var daily := BuildDaily(list, dateKey, weekday);
    return Ok(Forecast(daily, Hourly(list, timeLabel)));
  }

  /** The daily rows as the source builds them: fill the day map, keep seven keys, summarise each. */
  method BuildDaily(list: seq<ForecastItem>, dateKey: int -> string, weekday: string -> string) returns (daily: seq<ForecastDay>)
    ensures daily == Daily(list, dateKey, weekday)
  {
    var keys, groups := GroupByDate(list, dateKey);
    KeptDaysNonEmpty(list, dateKey);
    daily := SummarizeDays(list, dateKey, weekday, Take(keys, MaxDays), groups);
  }

  /** The `map` over the kept entries of the day map: each key's entries summarised under its weekday name. */
  method SummarizeDays(list: seq<ForecastItem>, dateKey: int -> string, weekday: string -> string,
                       days: seq<string>, groups: map<string, seq<ForecastItem>>) returns (daily: seq<ForecastDay>)
    requires forall k :: k in days ==> k in groups && groups[k] == DayItems(list, dateKey, k) && groups[k] != []
    ensures daily == DaysOf(list, dateKey, weekday, days)
  {
    daily := [];
    for i := 0 to |days|
      invariant daily == DaysOf(list, dateKey, weekday, days[..i])
    {
      var k := days[i];
      var day := Summarize(weekday(k), groups[k]);
      assert days[..i + 1][..i] == days[..i];
      daily := daily + [day];
    }
    assert days[..|days|] == days;
  }

  /** Every failure of the current-weather call reaches the forecast caller unchanged. */
  lemma ForecastPropagatesCurrentErrors(city: string, apiKey: string, current: Http<CurrentBody>, resp: Http<ForecastBody>,
                                        dateKey: int -> string, timeLabel: int -> string, weekday: string -> string)
    requires FetchWeatherData(city, apiKey, current).Err?
    ensures ForecastOf(city, apiKey, current, resp, dateKey, timeLabel, weekday) == Err(FetchWeatherData(city, apiKey, current).error)
  {
  }

  /** A 404 from the forecast request is an API error carrying 404, not 'city not found'. */
  lemma Forecast404IsApiError(city: string, apiKey: string, current: Http<CurrentBody>, resp: Http<ForecastBody>,
                              dateKey: int -> string, timeLabel: int -> string, weekday: string -> string)
    requires FetchWeatherData(city, apiKey, current).Ok?
    requires resp.Replied? && resp.status == 404
    ensures var r := ForecastOf(city, apiKey, current, resp, dateKey, timeLabel, weekday);
      r.Err? && r.error.code == ApiError && r.error.statusCode == Some(404)
  {
  }

  /** A successful forecast: at most eight hourly rows, at most seven days, each day ordered min <= mean <= max. */
  lemma ForecastShape(city: string, apiKey: string, current: Http<CurrentBody>, resp: Http<ForecastBody>,
                      dateKey: int -> string, timeLabel: int -> string, weekday: string -> string)
    requires ForecastOf(city, apiKey, current, resp, dateKey, timeLabel, weekday).Ok?
    ensures var f := ForecastOf(city, apiKey, current, resp, dateKey, timeLabel, weekday).value;
      var list := resp.body.list.value;
      resp.Replied? && IsOk(resp.status) && resp.body.list.Some? &&
      |f.hourly| <= HourlySlots && |f.daily| <= MaxDays &&
      (forall i :: 0 <= i < |f.hourly| ==> f.hourly[i].time == timeLabel(list[i].dt)) &&
      (forall i :: 0 <= i < |f.daily| ==> f.daily[i].tempMin <= f.daily[i].temp <= f.daily[i].tempMax)
  {
  }

  // ---------------------------------------------------------------------
  // Air pollution
  // ---------------------------------------------------------------------

  /** The `components` block; each field None when missing. */
  datatype Components = Components(co: Option<Num>, no2: Option<Num>, o3: Option<Num>,
                                   pm2_5: Option<Num>, pm10: Option<Num>, so2: Option<Num>)

  /** The first entry of the pollution list: `main.aqi` (None when not a number), its components and `dt`. */
  datatype PollutionEntry = PollutionEntry(aqi: Option<Num>, components: Option<Components>, dt: Option<Num>)

  datatype PollutionBody = PollutionBody(list: Option<seq<PollutionEntry>>)

  datatype PollutantLevels = PollutantLevels(co: int, no2: int, o3: int, pm2_5: int, pm10: int, so2: int)

  /** `AirPollutionData`. */
  datatype AirPollutionData = AirPollutionData(aqi: int, components: PollutantLevels, timestamp: real)

  /** `aqiMap`: the provider's index 1..5 read on the 0-500 scale (slot 0 is never used). */
  const AqiScale: seq<int> := [0, 50, 100, 150, 200, 300]

  /** `aqiMap[v] || 50` for a number in [1, 5], else 50: only the integers 1..5 index the table. */
  function ScaleAqi(v: Option<Num>): (aqi: int)
    ensures aqi in {50, 100, 150, 200, 300}
    ensures v.Some? && v.value.Fin? && v.value.r.Floor as real == v.value.r && 1 <= v.value.r.Floor <= 5 ==>
      aqi == 50 * v.value.r.Floor + (if v.value.r.Floor == 5 then 50 else 0)
    ensures !(v.Some? && v.value.Fin? && v.value.r.Floor as real == v.value.r && 1 <= v.value.r.Floor <= 5) ==> aqi == 50
  {
    if v.Some? && v.value.Fin? && 1.0 <= v.value.r <= 5.0 && v.value.r.Floor as real == v.value.r then
      AqiScale[v.value.r.Floor]
    else 50
  }

  /** `Math.round(x || 0)`. */
  function Level(x: Option<Num>): (n: int)
    ensures !(x.Some? && Truthy(x.value)) ==> n == 0
    ensures x.Some? && Truthy(x.value) ==> x.value.r - 0.5 < n as real <= x.value.r + 0.5
  {
    if x.Some? && Truthy(x.value) then Round(x.value.r) else 0
  }

  function Levels(c: Option<Components>): PollutantLevels {
    match c
    case None => PollutantLevels(0, 0, 0, 0, 0, 0)
    case Some(cs) => PollutantLevels(Level(cs.co), Level(cs.no2), Level(cs.o3), Level(cs.pm2_5), Level(cs.pm10), Level(cs.so2))
  }

  /**
    * `fetchAirPollution(lat, lon, apiKey)` with its reply; `now` is the
    * clock in seconds, used when the entry has no time. It never fails:
    * every problem gives None.
    */
  function FetchAirPollution(lat: Num, lon: Num, apiKey: string, resp: Http<PollutionBody>, now: real): (r: Option<AirPollutionData>)
    ensures IsBlank(apiKey) || lat.NaN? || lon.NaN? || resp.Threw? ==> r == None
    ensures resp.Replied? && (!IsOk(resp.status) || resp.body.list.None? || resp.body.list.value == []) ==> r == None
    ensures r.Some? ==> r.value.aqi in {50, 100, 150, 200, 300}
    ensures r.Some? ==> var e := resp.body.list.value[0];
      r.value.aqi == ScaleAqi(e.aqi) && r.value.components == Levels(e.components) &&
      r.value.timestamp == (if e.dt.Some? && Truthy(e.dt.value) then e.dt.value.r else now)
  {
    if IsBlank(apiKey) || lat.NaN? || lon.NaN? then None
    else match resp
      case Threw(_) => None
      case Replied(status, _, _, body) =>
        if !IsOk(status) || body.list.None? || body.list.value == [] then None
        else
          var e := body.list.value[0];
          Some(AirPollutionData(ScaleAqi(e.aqi), Levels(e.components),
            if e.dt.Some? && Truthy(e.dt.value) then e.dt.value.r else now))
  }

  /** `fetchAQI`: the pollution index, or 50 when there is none. */
  function FetchAqi(lat: Num, lon: Num, apiKey: string, resp: Http<PollutionBody>, now: real): (aqi: int)
    ensures aqi in {50, 100, 150, 200, 300}
    ensures var p := FetchAirPollution(lat, lon, apiKey, resp, now);
      (p.Some? ==> aqi == p.value.aqi) && (p.None? ==> aqi == 50)
  {
    var p := FetchAirPollution(lat, lon, apiKey, resp, now);
    if p.Some? && p.value.aqi != 0 then p.value.aqi else 50
  }

  // ---------------------------------------------------------------------
  // Condition keywords
  // ---------------------------------------------------------------------

  datatype WeatherKind = Storm | Sunny | Rainy | Cloudy | Default

  /** `getWeatherCondition`: keywords on the lowercased text, storm before rain before sun before cloud. */
  function GetWeatherCondition(condition: string): (k: WeatherKind)
    ensures var t := ToLower(condition);
      var storm := Contains(t, "thunder") || Contains(t, "storm");
      var rain := Contains(t, "rain") || Contains(t, "drizzle");
      var sun := Contains(t, "clear") || Contains(t, "sun");
      var cloud := Contains(t, "cloud");
      (k == Storm <==> storm) &&
      (k == Rainy <==> !storm && rain) &&
      (k == Sunny <==> !storm && !rain && sun) &&
      (k == Cloudy <==> !storm && !rain && !sun && cloud) &&
      (k == Default <==> !storm && !rain && !sun && !cloud)
  {
    var t := ToLower(condition);
    if Contains(t, "thunder") || Contains(t, "storm") then Storm
    else if Contains(t, "rain") || Contains(t, "drizzle") then Rainy
    else if Contains(t, "clear") || Contains(t, "sun") then Sunny
    else if Contains(t, "cloud") then Cloudy
    else Default
  }

  /** The classifier ignores letter case: lowercasing the input first changes nothing. */
  lemma ConditionIgnoresCase(condition: string)
    ensures GetWeatherCondition(ToLower(condition)) == GetWeatherCondition(condition)
  {
    ToLowerIdempotent(condition);
  }
}
