/**
  * The location card: the colour of its index dot, which treats a missing,
  * zero or NaN index as unknown, the condition under which the index block
  * is rendered at all, and the props' defaults.
  */
module LocationCard {
  import opened Js
  import AqiApi

  const Unknown := "bg-gray-400"

  /** The dot colours for positive indices, by band; the last covers every index above 200. */
  const DotColors: seq<string> := ["bg-green-400", "bg-yellow-400", "bg-orange-400", "bg-red-400", "bg-purple-400"]

  /** `getAQIColor(aqi)`. */
  function GetAqiColor(aqi: Option<Num>): (c: string)
    ensures c == Unknown <==> !ShowsAqiBlock(aqi)
    ensures c != Unknown ==> c in DotColors
  {
    if aqi.None? || !Truthy(aqi.value) then Unknown
    else
      var v := aqi.value.r;
      if v <= 50.0 then "bg-green-400"
      else if v <= 100.0 then "bg-yellow-400"
      else if v <= 150.0 then "bg-orange-400"
      else if v <= 200.0 then "bg-red-400"
      else "bg-purple-400"
  }

  /** `{aqi && ...}`: the index block is rendered only for a truthy index. */
  predicate ShowsAqiBlock(aqi: Option<Num>) {
    aqi.Some? && Truthy(aqi.value)
  }

  /** The dot is grey exactly when the block is not rendered, so a rendered block never has a grey dot. */
  lemma GreyIffHidden(aqi: Option<Num>)
    ensures GetAqiColor(aqi) == Unknown <==> !ShowsAqiBlock(aqi)
  {
  }

  /** An index of 0 is grey, not green. */
  lemma ZeroIsGrey()
    ensures GetAqiColor(Some(Fin(0.0))) == Unknown
    ensures GetAqiColor(None) == Unknown
  {
  }

  /**
    * For a positive whole index the dot follows the service's bands, with
    * the hazardous band folded into the purple of the band below it.
    */
  lemma DotFollowsBands(aqi: int)
    requires aqi > 0
    ensures var k := AqiApi.BandIndex(aqi);
      GetAqiColor(Some(Fin(aqi as real))) == DotColors[if k < 4 then k else 4]
  {
    AqiApi.BandIndexUnrolled(aqi);
  }

  datatype CardIcon = Cloudy | Rainy | Sunny

  /** The optional props of the card. */
  datatype Props = Props(icon: Option<CardIcon>, aqi: Option<Num>, lastUpdated: Option<string>, isFavorite: Option<bool>)

  /** The props after the defaults are applied. */
  datatype Settled = Settled(icon: CardIcon, aqi: Option<Num>, lastUpdated: string, isFavorite: bool)

  /** The destructuring defaults of `LocationCard`. */
  function WithDefaults(p: Props): (s: Settled)
    ensures p.icon.None? ==> s.icon == Cloudy
    ensures p.lastUpdated.None? ==> s.lastUpdated == "2 min ago"
    ensures p.isFavorite.None? ==> !s.isFavorite
    ensures p.icon.Some? ==> s.icon == p.icon.value
    ensures p.lastUpdated.Some? ==> s.lastUpdated == p.lastUpdated.value
    ensures p.isFavorite.Some? ==> s.isFavorite == p.isFavorite.value
    ensures s.aqi == p.aqi
  {
    Settled(p.icon.GetOr(Cloudy), p.aqi, p.lastUpdated.GetOr("2 min ago"), p.isFavorite.GetOr(false))
  }
}
