/**
  * The animated weather icon: keyword tests on the lowercased condition,
  * sun first, then cloud, rain, storm and snow, with a plain cloud when
  * nothing matches.
  */
module AnimatedWeatherIcon {
  import opened Text
  import WeatherApi

  /** The six drawings the component can return. */
  datatype Drawing = SunRays | DriftingCloud | RainDrops | Lightning | Snowfall | PlainCloud

  /** The keyword tests, in the order they are tried. */
  predicate Sunny(t: string) { Contains(t, "clear") || Contains(t, "sun") }
  predicate Cloudy(t: string) { Contains(t, "cloud") }
  predicate Rainy(t: string) { Contains(t, "rain") }
  predicate Stormy(t: string) { Contains(t, "thunder") || Contains(t, "storm") }
  predicate Snowy(t: string) { Contains(t, "snow") }

  /** `AnimatedWeatherIcon({ condition })`: the first matching test picks the drawing. */
  function Select(condition: string): (d: Drawing)
    ensures var t := ToLower(condition);
      (d == SunRays <==> Sunny(t)) &&
      (d == DriftingCloud <==> !Sunny(t) && Cloudy(t)) &&
      (d == RainDrops <==> !Sunny(t) && !Cloudy(t) && Rainy(t)) &&
      (d == Lightning <==> !Sunny(t) && !Cloudy(t) && !Rainy(t) && Stormy(t)) &&
      (d == Snowfall <==> !Sunny(t) && !Cloudy(t) && !Rainy(t) && !Stormy(t) && Snowy(t)) &&
      (d == PlainCloud <==> !Sunny(t) && !Cloudy(t) && !Rainy(t) && !Stormy(t) && !Snowy(t))
  {
    var t := ToLower(condition);
    if Sunny(t) then SunRays
    else if Cloudy(t) then DriftingCloud
    else if Rainy(t) then RainDrops
    else if Stormy(t) then Lightning
    else if Snowy(t) then Snowfall
    else PlainCloud
  }

  /** Only the letters matter, not their case. */
  lemma SelectIgnoresCase(condition: string)
    ensures Select(ToLower(condition)) == Select(condition)
  {
    ToLowerIdempotent(condition);
  }

  /**
    * Rain is tested before thunder and storm here, while the service's
    * condition classifier tests storm first: a condition naming both rain
    * and a storm, and no sun or cloud, is drawn as rain but classified as
    * a storm.
    */
  lemma RainBeforeStorm(condition: string)
    requires var t := ToLower(condition);
      Rainy(t) && Stormy(t) && !Sunny(t) && !Cloudy(t)
    ensures Select(condition) == RainDrops
    ensures WeatherApi.GetWeatherCondition(condition) == WeatherApi.Storm
  {
  }
}
