/**
  * The `useWeather` hook: one run of `loadWeatherData` over the five
  * pieces of state the dashboard shows (weather, forecast, detailed air
  * pollution, the loading flag and the error text).
  *
  * Each request's reply is a parameter. The hook makes up to five
  * requests, in this order: current weather; current weather again and
  * then the forecast, both inside `fetchForecast`; detailed air pollution;
  * and a second air-pollution request inside `fetchAQI`, made only when
  * the first one gave nothing.
  */
module WeatherHook {
  import opened Js
  import opened Text
  import Config
  import opened Settings
  import opened WeatherApi

  /** The requests the hook can issue. */
  datatype Request = CurrentWeather | ForecastList | AirPollution

  const KeyHintConfigured := "Please add your OpenWeatherMap API key in Settings or configure it in the .env file."
  const KeyHintMissing := "Please configure your OpenWeatherMap API key. See Settings or create a .env file with VITE_OPENWEATHER_API_KEY."

  /** `city || settings.location`. */
  function Location(city: Option<string>, settings: SettingsValue): (loc: string)
    ensures city.Some? && city.value != "" ==> loc == city.value
    ensures city.None? || city.value == "" ==> loc == settings.location
  {
    if city.Some? && city.value != "" then city.value else settings.location
  }

  /** `settings.apiKey || getValidatedApiKey()`. */
  function EffectiveKey(settings: SettingsValue, env: Option<string>): (key: string)
    ensures settings.apiKey != "" ==> key == settings.apiKey
    ensures settings.apiKey == "" ==> key == Config.GetValidatedApiKey(env)
  {
    if settings.apiKey != "" then settings.apiKey else Config.GetValidatedApiKey(env)
  }

  /** The error shown when no usable key exists, chosen by whether the environment key is configured. */
  function KeyHint(env: Option<string>): string {
    if Config.IsApiKeyConfigured(env) then KeyHintConfigured else KeyHintMissing
  }

  /** A blank effective key can only come from a blank (not empty) settings key, or an empty one with no valid environment key. */
  lemma BlankKeyCases(settings: SettingsValue, env: Option<string>)
    requires IsBlank(EffectiveKey(settings, env))
    ensures settings.apiKey != "" || !Config.IsApiKeyConfigured(env)
    ensures settings.apiKey == "" ==> KeyHint(env) == KeyHintMissing
  {
    if settings.apiKey == "" {
      Config.ConfiguredIffValidated(env);
    }
  }

  /** The renaming applied to the current weather: exact matches only, and the index attached. */
  function NormalizeLocation(w: WeatherData, aqi: int): (n: WeatherData)
    ensures n.city == (if w.city == "Jakarta" then "Nashik" else w.city)
    ensures n.country == (if w.country == "ID" then "IN" else w.country)
    ensures n.aqi == Some(aqi)
    ensures n.(city := w.city, country := w.country, aqi := w.aqi) == w
  {
    w.(city := if w.city == "Jakarta" then "Nashik" else w.city,
       country := if w.country == "ID" then "IN" else w.country,
       aqi := Some(aqi))
  }

  /** Renaming twice is renaming once: neither replacement is itself renamed. */
  lemma NormalizeLocationIdempotent(w: WeatherData, aqi: int)
    ensures NormalizeLocation(NormalizeLocation(w, aqi), aqi) == NormalizeLocation(w, aqi)
  {
  }

  /**
    * `pollutionData?.aqi || fetchAQI(...)` for the detailed reply and the
    * reply to the fallback request, which is only consulted when the
    * detailed one gave nothing.
    */
  function AttachedAqi(w: WeatherData, key: string, pollution: Http<PollutionBody>, fallback: Http<PollutionBody>, now: real): (aqi: int)
    ensures aqi in {50, 100, 150, 200, 300}
    ensures var p := FetchAirPollution(Fin(w.lat), Fin(w.lon), key, pollution, now);
      (p.Some? ==> aqi == p.value.aqi) &&
      (p.None? ==> aqi == FetchAqi(Fin(w.lat), Fin(w.lon), key, fallback, now))
  {
    var p := FetchAirPollution(Fin(w.lat), Fin(w.lon), key, pollution, now);
    if p.Some? && p.value.aqi != 0 then p.value.aqi
    else FetchAqi(Fin(w.lat), Fin(w.lon), key, fallback, now)
  }

  /** The replies to the hook's requests, in the order they are made. */
  datatype Replies = Replies(
    current: Http<CurrentBody>,
    forecastCurrent: Http<CurrentBody>,
    forecast: Http<ForecastBody>,
    pollution: Http<PollutionBody>,
    fallback: Http<PollutionBody>)

  /** The locale functions and the clock. */
  datatype Locale = Locale(dateKey: int -> string, timeLabel: int -> string, weekday: string -> string, now: real)

  /** How one load with a usable key ends. */
  datatype Outcome =
    | Failed(message: string)
    | Loaded(weather: WeatherData, forecast: Forecast, airPollution: Option<AirPollutionData>)

  /** How one load with a usable key ends, and the requests it made, in order. */
  datatype Trace = Trace(outcome: Outcome, made: seq<Request>)

  /**
    * The try block of `loadWeatherData`, as one value: the current weather,
    * then the rest of the steps. The first failure ends the load with its
    * message.
    */
  function LoadTrace(loc: string, key: string, rs: Replies, lc: Locale): Trace
  {
    match FetchWeatherData(loc, key, rs.current)
    case Err(e) => Trace(Failed(e.message), CurrentMade(loc, key))
    case Ok(w) =>
      var rest := AfterCurrent(loc, key, rs, lc, w);
      Trace(rest.outcome, CurrentMade(loc, key) + rest.made)
  }

  /**
    * The request of `fetchWeatherData`: it is issued only once the key and
    * the city have passed their checks, which throw before any request.
    */
  function CurrentMade(loc: string, key: string): seq<Request>
  {
    if IsBlank(key) || IsBlank(loc) then [] else [CurrentWeather]
  }

  /**
    * The steps after the current weather `w` arrived: `fetchForecast`, which
    * asks for the current weather again before its own request, then the
    * pollution step.
    */
  function AfterCurrent(loc: string, key: string, rs: Replies, lc: Locale, w: WeatherData): Trace
  {
    match ForecastOf(loc, key, rs.forecastCurrent, rs.forecast, lc.dateKey, lc.timeLabel, lc.weekday)
    case Err(e) => Trace(Failed(e.message), ForecastMade(loc, key, rs))
    case Ok(f) =>
      var rest := PollutionStep(key, rs, lc, w, f);
      Trace(rest.outcome, ForecastMade(loc, key, rs) + rest.made)
  }

  /** The requests of `fetchForecast`: the current weather, then the list when that succeeded. */
  function ForecastMade(loc: string, key: string, rs: Replies): seq<Request>
  {
    CurrentMade(loc, key) + (if FetchWeatherData(loc, key, rs.forecastCurrent).Ok? then [ForecastList] else [])
  }

  /**
    * The pollution step after both weather calls succeeded: the detailed
    * request, the fallback inside `fetchAQI` when it gave nothing, and the
    * loaded data.
    */
  function PollutionStep(key: string, rs: Replies, lc: Locale, w: WeatherData, f: Forecast): Trace
  {
    var pollution := FetchAirPollution(Fin(w.lat), Fin(w.lon), key, rs.pollution, lc.now);
    Trace(Loaded(NormalizeLocation(w, AttachedAqi(w, key, rs.pollution, rs.fallback, lc.now)), f, pollution),
      if pollution.Some? then [AirPollution] else [AirPollution, AirPollution])
  }

  /** The full order of requests. */
  const RequestOrder := [CurrentWeather, CurrentWeather, ForecastList, AirPollution, AirPollution]

  /**
    * The steps run in a fixed order and stop at the first failure: the
    * requests made are a prefix of the full order, the pollution request
    * is made exactly when both weather calls succeeded, and the fallback
    * request exactly when, in addition, the detailed request gave nothing.
    * A blank location fails its check before any request.
    */
  lemma StepOrder(loc: string, key: string, rs: Replies, lc: Locale)
    requires !IsBlank(key)
    ensures var t := LoadTrace(loc, key, rs, lc);
      t.made <= RequestOrder &&
      (t.made == [] <==> IsBlank(loc)) &&
      (|t.made| >= 4 <==> t.outcome.Loaded?) &&
      (|t.made| == 5 <==> t.outcome.Loaded? && t.outcome.airPollution.None?)
  {
  }

  /** A load that completes attaches an index from the pollution scale, and renames only exact matches. */
  lemma LoadedFacts(loc: string, key: string, rs: Replies, lc: Locale)
    requires LoadTrace(loc, key, rs, lc).outcome.Loaded?
    ensures var o := LoadTrace(loc, key, rs, lc).outcome;
      var w := FetchWeatherData(loc, key, rs.current).value;
      o.weather.aqi.Some? && o.weather.aqi.value in {50, 100, 150, 200, 300} &&
      (o.airPollution.Some? ==> o.weather.aqi.value == o.airPollution.value.aqi) &&
      o.weather == NormalizeLocation(w, o.weather.aqi.value)
  {
  }

  /** A successful forecast step means the forecast's own current-weather call succeeded. */
  lemma ForecastNeedsCurrent(loc: string, key: string, rs: Replies, lc: Locale)
    requires ForecastOf(loc, key, rs.forecastCurrent, rs.forecast, lc.dateKey, lc.timeLabel, lc.weekday).Ok?
    ensures FetchWeatherData(loc, key, rs.forecastCurrent).Ok?
  {
  }

  /** The state the hook exposes. */
  datatype View = View(
    weather: Option<WeatherData>, forecast: Option<Forecast>, airPollution: Option<AirPollutionData>,
    loading: bool, error: Option<string>)

  /**
    * The state after a load with a usable key has ended: a failure sets
    * its message and leaves the three data fields as they were; a success
    * sets all three together and clears the error. Loading ends either way.
    */
  function Settle(prior: View, o: Outcome): (v: View)
    ensures !v.loading
    ensures o.Failed? ==> (v.error == Some(o.message) &&
      v.weather == prior.weather && v.forecast == prior.forecast && v.airPollution == prior.airPollution)
    ensures o.Loaded? ==> (v.error == None &&
      v.weather == Some(o.weather) && v.forecast == Some(o.forecast) && v.airPollution == o.airPollution)
  {
    match o
    case Failed(m) => prior.(loading := false, error := Some(m))
    case Loaded(w, f, p) => View(Some(w), Some(f), p, false, None)
  }

  /** The state of one `useWeather` instance. */
  class WeatherLoader {
    var weather: Option<WeatherData>
    var forecast: Option<Forecast>
    var airPollution: Option<AirPollutionData>
    var loading: bool
    var error: Option<string>
    /** The requests issued so far. */
    ghost var requests: seq<Request>

    /** The five pieces of state together. */
    function Current(): View
      reads this
    {
      View(weather, forecast, airPollution, loading, error)
    }

    /** The hook's initial state: nothing loaded, loading, no error. */
    constructor ()
      ensures Current() == View(None, None, None, true, None) && requests == []
    {
      weather, forecast, airPollution := None, None, None;
      loading, error := true, None;
      requests := [];
    }

    /**
      * `loadWeatherData` for the hook's `city` argument and settings. A
      * blank key sets the hint and stops, with no request made. Otherwise
      * the error is cleared, loading is set, and the load settles as its
      * trace says.
      */
    method LoadWeatherData(city: Option<string>, settings: SettingsValue, env: Option<string>, rs: Replies, lc: Locale)
      modifies this
      ensures IsBlank(EffectiveKey(settings, env)) ==>
        Current() == old(Current()).(loading := false, error := Some(KeyHint(env))) && requests == old(requests)
      ensures !IsBlank(EffectiveKey(settings, env)) ==>
        var t := LoadTrace(Location(city, settings), EffectiveKey(settings, env), rs, lc);
        Current() == Settle(old(Current()).(loading := true, error := None), t.outcome) && requests == old(requests) + t.made
    {
      var key := EffectiveKey(settings, env);
      if IsBlank(key) {
        error := Some(KeyHint(env));
        loading := false;
        return;
      }
      loading := true;
      error := None;
      RunSteps(Location(city, settings), key, rs, lc);
    }

    /** The `try`/`finally` part of `loadWeatherData`, entered with a usable key. */
    method RunSteps(loc: string, key: string, rs: Replies, lc: Locale)
      requires !IsBlank(key) && error == None
      modifies this
      ensures Current() == Settle(old(Current()), LoadTrace(loc, key, rs, lc).outcome)
      ensures requests == old(requests) + LoadTrace(loc, key, rs, lc).made
    {
      if !IsBlank(loc) {
        requests := requests + [CurrentWeather];
      }
      var current := FetchWeatherData(loc, key, rs.current);
      if current.Err? {
        error := Some(current.error.message);
        loading := false;
        return;
      }
      LaterSteps(loc, key, rs, lc, current.value);
    }

    /** The steps after a successful current-weather call: the forecast, then the pollution step. */
    method LaterSteps(loc: string, key: string, rs: Replies, lc: Locale, w: WeatherData)
      requires !IsBlank(key) && error == None
      modifies this
      ensures Current() == Settle(old(Current()), AfterCurrent(loc, key, rs, lc, w).outcome)
      ensures requests == old(requests) + AfterCurrent(loc, key, rs, lc, w).made
    {
      var fc := ForecastStep(loc, key, rs, lc);
      if fc.Err? {
        error := Some(fc.error.message);
        loading := false;
        return;
      }
      forecast := Some(fc.value);
      FetchPollution(key, rs, lc, w, fc.value);
    }

    /** The `fetchForecast` call: its two requests (the second only when the first succeeded) and its result. */
    method ForecastStep(loc: string, key: string, rs: Replies, lc: Locale) returns (fc: Result<Forecast>)
      modifies this
      ensures fc == ForecastOf(loc, key, rs.forecastCurrent, rs.forecast, lc.dateKey, lc.timeLabel, lc.weekday)
      ensures requests == old(requests) + ForecastMade(loc, key, rs)
      ensures fc.Ok? ==> ForecastMade(loc, key, rs) == [CurrentWeather, ForecastList]
      ensures Current() == old(Current())
    {
      if !IsBlank(key) && !IsBlank(loc) {
        requests := requests + [CurrentWeather];
      }
      if FetchWeatherData(loc, key, rs.forecastCurrent).Ok? {
        requests := requests + [ForecastList];
      }
      fc := FetchForecast(loc, key, rs.forecastCurrent, rs.forecast, lc.dateKey, lc.timeLabel, lc.weekday);
    }

    /** The pollution step, after both weather calls succeeded. */
    method FetchPollution(key: string, rs: Replies, lc: Locale, w: WeatherData, f: Forecast)
      requires error == None && forecast == Some(f)
      modifies this
      ensures Current() == Settle(old(Current()), PollutionStep(key, rs, lc, w, f).outcome)
      ensures requests == old(requests) + PollutionStep(key, rs, lc, w, f).made
    {
      requests := requests + [AirPollution];
      var pollution := FetchAirPollution(Fin(w.lat), Fin(w.lon), key, rs.pollution, lc.now);
      if pollution.None? {
        requests := requests + [AirPollution];
      }
      var aqi := AttachedAqi(w, key, rs.pollution, rs.fallback, lc.now);
      weather := Some(NormalizeLocation(w, aqi));
      airPollution := pollution;
      loading := false;
    }
  }
}
