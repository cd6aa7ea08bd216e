/**
  * The air-quality page: the per-pollutant status labels (with the unit
  * guess for carbon monoxide), the colour picked for a label by keyword,
  * the demo-mode switch that decides which readings and which index are
  * shown, and the two-part health advice chosen by index band.
  */
module AqiPage {
  import opened Js
  import opened Text
  import AqiApi
  import WeatherApi

  // ---------------------------------------------------------------------
  // Pollutant status
  // ---------------------------------------------------------------------

  /** The labels `getPollutantStatus` returns, least to most severe. */
  const StatusLabels: seq<string> := ["Good", "Moderate", "Unhealthy for Sensitive", "Unhealthy", "Very Unhealthy"]

  /** The four inclusive upper ends of the first four labels, for one pollutant. */
  datatype Cuts = Cuts(good: real, moderate: real, sensitive: real, unhealthy: real)

  /** The ends strictly increase. */
  predicate Ascending(c: Cuts) {
    c.good < c.moderate < c.sensitive < c.unhealthy
  }

  /** The ends as a sequence, so that band k is (Ends(c)[k-1], Ends(c)[k]]. */
  function Ends(c: Cuts): (e: seq<real>)
    ensures |e| == 4
  {
    [c.good, c.moderate, c.sensitive, c.unhealthy]
  }

  /** The label index of a value: the first end it does not exceed, or 4. */
  function Grade(v: real, c: Cuts): (k: nat)
    ensures k <= 4
    ensures k == 0 || Ends(c)[k - 1] < v
    ensures k == 4 || v <= Ends(c)[k]
  {
    if v <= c.good then 0
    else if v <= c.moderate then 1
    else if v <= c.sensitive then 2
    else if v <= c.unhealthy then 3
    else 4
  }

  /** With increasing ends, a larger value never gets a lower index. */
  lemma GradeMonotone(a: real, b: real, c: Cuts)
    requires Ascending(c) && a <= b
    ensures Grade(a, c) <= Grade(b, c)
  {
  }

  /** The switch over the pollutant name; any other name has no table. */
  function PollutantCuts(name: string): Option<Cuts> {
    if name == "PM2.5" then Some(Cuts(12.0, 35.0, 55.0, 150.0))
    else if name == "PM10" then Some(Cuts(20.0, 50.0, 100.0, 250.0))
    else if name == "O3" then Some(Cuts(100.0, 160.0, 200.0, 300.0))
    else if name == "NO2" then Some(Cuts(40.0, 80.0, 180.0, 280.0))
    else if name == "SO2" then Some(Cuts(20.0, 80.0, 250.0, 350.0))
    else if name == "CO" then Some(Cuts(4.5, 9.0, 15.0, 30.0))
    else None
  }

  /**
    * Carbon monoxide in mg/m3: a value above 100 is taken as ppb and
    * multiplied by 1.15, any other as ug/m3; both are then divided by 1000.
    */
  function CoMilligrams(value: real): (mg: real)
    ensures value > 100.0 ==> mg > 0.1
    ensures value <= 100.0 ==> mg <= 0.1
  {
    if value > 100.0 then value * 1.15 / 1000.0 else value / 1000.0
  }

  /** The unit guess keeps the order of readings, across the switch at 100 too. */
  lemma CoMilligramsMonotone(a: real, b: real)
    requires a <= b
    ensures CoMilligrams(a) <= CoMilligrams(b)
  {
  }

  /** The value compared against the table: converted for CO, as given otherwise. */
  function Compared(name: string, value: real): real {
    if name == "CO" then CoMilligrams(value) else value
  }

  /** `getPollutantStatus(name, value)`. */
  function GetPollutantStatus(name: string, value: real): (status: string)
    ensures status in StatusLabels
    ensures status != "Hazardous"
    ensures PollutantCuts(name).None? ==> status == "Good"
  {
    match PollutantCuts(name)
    case None => "Good"
    case Some(c) => StatusLabels[Grade(Compared(name, value), c)]
  }

  /** The position of a label in the severity order. */
  function Severity(status: string): (k: nat)
    requires status in StatusLabels
    ensures k < |StatusLabels| && StatusLabels[k] == status
  {
    if status == "Good" then 0
    else if status == "Moderate" then 1
    else if status == "Unhealthy for Sensitive" then 2
    else if status == "Unhealthy" then 3
    else 4
  }

  /** Every table has increasing ends. */
  lemma CutsAscending(name: string)
    requires PollutantCuts(name).Some?
    ensures Ascending(PollutantCuts(name).value)
  {
  }

  /**
    * The band boundaries of a known pollutant: the label of severity k is
    * returned exactly for compared values above the (k-1)th end and at
    * most the kth.
    */
  lemma StatusBands(name: string, value: real)
    requires PollutantCuts(name).Some?
    ensures var k := Severity(GetPollutantStatus(name, value));
      var e := Ends(PollutantCuts(name).value);
      var v := Compared(name, value);
      (k == 0 || e[k - 1] < v) && (k == 4 || v <= e[k])
  {
    var c := PollutantCuts(name).value;
    assert GetPollutantStatus(name, value) == StatusLabels[Grade(Compared(name, value), c)];
  }

  /** A higher reading of the same pollutant is never reported as less severe. */
  lemma StatusMonotone(name: string, a: real, b: real)
    requires a <= b
    ensures Severity(GetPollutantStatus(name, a)) <= Severity(GetPollutantStatus(name, b))
  {
    if PollutantCuts(name).Some? {
      var c := PollutantCuts(name).value;
      CutsAscending(name);
      if name == "CO" {
        CoMilligramsMonotone(a, b);
      }
      GradeMonotone(Compared(name, a), Compared(name, b), c);
      assert GetPollutantStatus(name, a) == StatusLabels[Grade(Compared(name, a), c)];
      assert GetPollutantStatus(name, b) == StatusLabels[Grade(Compared(name, b), c)];
    }
  }

  /** Every carbon-monoxide reading up to 100, in either unit, is Good. */
  lemma LowCoIsGood(value: real)
    requires value <= 100.0
    ensures GetPollutantStatus("CO", value) == "Good"
  {
  }

  // ---------------------------------------------------------------------
  // Status colour
  // ---------------------------------------------------------------------

  /** The colours of the five labels, in the order of StatusLabels. */
  const StatusColors: seq<string> := ["text-aqi-good", "text-aqi-moderate", "text-aqi-unhealthySensitive", "text-aqi-unhealthy", "text-aqi-veryUnhealthy"]

  /** `getStatusColor(status)`: the first keyword test that matches picks the colour. */
  function GetStatusColor(status: string): string {
    if Contains(status, "Good") then "text-aqi-good"
    else if Contains(status, "Moderate") then "text-aqi-moderate"
    else if Contains(status, "Sensitive") then "text-aqi-unhealthySensitive"
    else if Contains(status, "Unhealthy") && !Contains(status, "Very") then "text-aqi-unhealthy"
    else if Contains(status, "Very Unhealthy") then "text-aqi-veryUnhealthy"
    else "text-aqi-hazardous"
  }

  /** A label without the capitals G, M and S passes over the first three tests. */
  lemma NoEarlyKeyword(s: string)
    requires 'G' !in s && 'M' !in s && 'S' !in s
    ensures !Contains(s, "Good") && !Contains(s, "Moderate") && !Contains(s, "Sensitive")
  {
    MissingChar(s, "Good", 'G');
    MissingChar(s, "Moderate", 'M');
    MissingChar(s, "Sensitive", 'S');
  }

  /** "Unhealthy for Sensitive" has neither Good nor Moderate. */
  lemma SensitiveLacksEarly(s: string)
    requires s == "Unhealthy for Sensitive"
    ensures !Contains(s, "Good") && !Contains(s, "Moderate")
  {
    MissingChar(s, "Good", 'G');
    MissingChar(s, "Moderate", 'M');
  }

  /** "Unhealthy for Sensitive" has Sensitive. */
  lemma SensitiveHasSensitive(s: string)
    requires s == "Unhealthy for Sensitive"
    ensures Contains(s, "Sensitive")
  {
    assert s == "Unhealthy for " + "Sensitive";
    EndsWith("Unhealthy for ", "Sensitive");
  }

  /** "Unhealthy" has none of the first three keywords and not Very. */
  lemma UnhealthyKeywords(s: string)
    requires s == "Unhealthy"
    ensures !Contains(s, "Good") && !Contains(s, "Moderate") && !Contains(s, "Sensitive")
    ensures Contains(s, "Unhealthy") && !Contains(s, "Very")
  {
    NoEarlyKeyword(s);
    MissingChar(s, "Very", 'V');
    StartsWith(s, "Unhealthy");
  }

  /** "Very Unhealthy" has Unhealthy, Very and itself, and none of the first three keywords. */
  lemma VeryUnhealthyKeywords(s: string)
    requires s == "Very Unhealthy"
    ensures !Contains(s, "Good") && !Contains(s, "Moderate") && !Contains(s, "Sensitive")
    ensures Contains(s, "Very") && Contains(s, "Very Unhealthy")
  {
    NoEarlyKeyword(s);
    StartsWith(s, "Very");
    StartsWith(s, "Very Unhealthy");
  }

  /**
    * Each label gets its own level's colour: "Unhealthy for Sensitive" is
    * caught by the Sensitive test before the Unhealthy one, and no label
    * falls through to the hazardous colour.
    */
  lemma StatusColorOfLabels(status: string)
    requires status in StatusLabels
    ensures GetStatusColor(status) == StatusColors[Severity(status)]
    ensures GetStatusColor(status) != "text-aqi-hazardous"
  {
    if status == "Good" {
      StartsWith(status, "Good");
    } else if status == "Moderate" {
      MissingChar(status, "Good", 'G');
      StartsWith(status, "Moderate");
    } else if status == "Unhealthy for Sensitive" {
      SensitiveLacksEarly(status);
      SensitiveHasSensitive(status);
    } else if status == "Unhealthy" {
      UnhealthyKeywords(status);
    } else {
      VeryUnhealthyKeywords(status);
    }
  }

  // ---------------------------------------------------------------------
  // Demo mode
  // ---------------------------------------------------------------------

  /** One tile of the pollutant grid. */
  datatype Reading = Reading(name: string, value: real, unit: string, status: string)

  const Micrograms := "\U{00B5}g/m\U{00B3}"

  /** `getDemoPollutants()`: fixed readings with fixed labels. */
  const DemoPollutants: seq<Reading> := [
    Reading("PM2.5", 72.0, Micrograms, "Unhealthy"),
    Reading("PM10", 97.0, Micrograms, "Unhealthy"),
    Reading("O3", 14.0, "ppb", "Good"),
    Reading("NO2", 7.0, "ppb", "Good"),
    Reading("SO2", 2.0, "ppb", "Good"),
    Reading("CO", 272.0, "ppb", "Moderate")]

  /** The index shown when none is available. */
  const DemoAqi := 162

  /** `FORCE_DEMO_MODE`. */
  const ForceDemoMode := true

  /** A tile whose label is computed from its reading. */
  function Live(name: string, value: int): Reading {
    Reading(name, value as real, Micrograms, GetPollutantStatus(name, value as real))
  }

  /** The six tiles built from fetched components, when there are any. */
  function LiveReadings(airPollution: Option<WeatherApi.AirPollutionData>): seq<Reading> {
    match airPollution
    case None => DemoPollutants
    case Some(p) =>
      var c := p.components;
      [Live("PM2.5", c.pm2_5), Live("PM10", c.pm10), Live("O3", c.o3),
       Live("NO2", c.no2), Live("SO2", c.so2), Live("CO", c.co)]
  }

  /** `weather?.aqi || airPollution?.aqi`, when either is truthy. */
  function FetchedAqi(weather: Option<WeatherApi.WeatherData>, airPollution: Option<WeatherApi.AirPollutionData>): Option<int> {
    if weather.Some? && weather.value.aqi.Some? && weather.value.aqi.value != 0 then weather.value.aqi
    else if airPollution.Some? && airPollution.value.aqi != 0 then Some(airPollution.value.aqi)
    else None
  }

  /** `hasApiData`: a fetched record is present and demo mode is off. */
  predicate HasApiData(airPollution: Option<WeatherApi.AirPollutionData>) {
    !ForceDemoMode && airPollution.Some?
  }

  /** `hasApiAQI`: a fetched index is truthy and demo mode is off. */
  predicate HasApiAqi(weather: Option<WeatherApi.WeatherData>, airPollution: Option<WeatherApi.AirPollutionData>) {
    !ForceDemoMode && FetchedAqi(weather, airPollution).Some?
  }

  /** `pollutants`: the live tiles when there is live data, else the demo tiles. */
  function PagePollutants(airPollution: Option<WeatherApi.AirPollutionData>): seq<Reading> {
    if HasApiData(airPollution) then LiveReadings(airPollution) else DemoPollutants
  }

  /** `currentAQI`: the fetched index when there is one, else 162. */
  function CurrentAqi(weather: Option<WeatherApi.WeatherData>, airPollution: Option<WeatherApi.AirPollutionData>): int {
    if HasApiAqi(weather, airPollution) then FetchedAqi(weather, airPollution).GetOr(DemoAqi) else DemoAqi
  }

  /**
    * With demo mode forced, nothing fetched reaches the page: the demo
    * tiles and the index 162 are shown, and 162 is in the Unhealthy band.
    */
  lemma DemoModeForced(weather: Option<WeatherApi.WeatherData>, airPollution: Option<WeatherApi.AirPollutionData>)
    ensures !HasApiData(airPollution) && !HasApiAqi(weather, airPollution)
    ensures PagePollutants(airPollution) == DemoPollutants
    ensures CurrentAqi(weather, airPollution) == 162
    ensures AqiApi.BandIndex(CurrentAqi(weather, airPollution)) == 3
  {
    AqiApi.BandIndexUnrolled(162);
  }

  /**
    * Two of the fixed demo labels are not what the status function gives
    * for their own values: PM10 at 97 is "Unhealthy for Sensitive", and CO
    * at 272 ppb is Good; the other four agree.
    */
  lemma DemoLabelsAgainstStatus()
    ensures GetPollutantStatus("PM2.5", 72.0) == DemoPollutants[0].status
    ensures GetPollutantStatus("PM10", 97.0) == "Unhealthy for Sensitive" != DemoPollutants[1].status
    ensures GetPollutantStatus("O3", 14.0) == DemoPollutants[2].status
    ensures GetPollutantStatus("NO2", 7.0) == DemoPollutants[3].status
    ensures GetPollutantStatus("SO2", 2.0) == DemoPollutants[4].status
    ensures GetPollutantStatus("CO", 272.0) == "Good" != DemoPollutants[5].status
  {
  }

  // ---------------------------------------------------------------------
  // Health advice
  // ---------------------------------------------------------------------

  /** The two advice texts shown for an index. */
  datatype Advice = Advice(general: string, sensitive: string)

  const AdviceTable: seq<Advice> := [
    Advice("Air quality is excellent. Everyone can enjoy outdoor activities safely.",
           "Air quality is good. Sensitive individuals may enjoy normal outdoor activities."),
    Advice("Air quality is acceptable. Most people can enjoy outdoor activities.",
           "Unusually sensitive people should consider reducing prolonged outdoor exertion."),
    Advice("Sensitive individuals may experience health effects. The general public is less likely to be affected.",
           "People with respiratory conditions, children, and older adults should limit outdoor activities."),
    Advice("Everyone may begin to experience health effects. Sensitive groups may experience more serious effects.",
           "People with heart or lung disease, older adults, and children should avoid outdoor activities."),
    Advice("Health alert: Everyone may experience more serious health effects.",
           "Sensitive groups should avoid all outdoor activities. Others should limit outdoor exertion."),
    Advice("Health warning of emergency conditions. The entire population is likely to be affected.",
           "Everyone should avoid all outdoor activities. Stay indoors with air purifiers if possible.")]

  /** The advice chain over `currentAQI`. */
  function HealthAdvice(aqi: int): (a: Advice)
    ensures a == AdviceTable[AqiApi.BandIndex(aqi)]
  {
    AqiApi.BandIndexUnrolled(aqi);
    if aqi <= 50 then AdviceTable[0]
    else if aqi <= 100 then AdviceTable[1]
    else if aqi <= 150 then AdviceTable[2]
    else if aqi <= 200 then AdviceTable[3]
    else if aqi <= 300 then AdviceTable[4]
    else AdviceTable[5]
  }

  /** The advice chain picks the same band as the service's classifiers. */
  lemma AdviceFollowsBands(aqi: int)
    ensures HealthAdvice(aqi) == AdviceTable[AqiApi.BandIndex(aqi)]
    ensures AqiApi.AqiCategory(aqi) == AqiApi.AqiCategories[AqiApi.BandIndex(aqi)]
  {
    AqiApi.BandIndexUnrolled(aqi);
    AqiApi.ClassifiersAgree(aqi);
  }
}
