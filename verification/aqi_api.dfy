/**
  * The air-quality service: the US EPA breakpoint tables and the
  * piecewise-linear index they define (with the carbon-monoxide unit
  * guess), the normalisation of World Air Quality Index station records
  * with its eight-city demo fallback, and the six-band colour, category
  * and advice classifiers.
  */
module AqiApi {
  import opened Js
  import opened Text

  // ---------------------------------------------------------------------
  // Breakpoint tables
  // ---------------------------------------------------------------------

  /** One band: concentrations [min, max] map linearly onto [aqiMin, aqiMax]. */
  datatype Breakpoint = Breakpoint(min: real, max: real, aqiMin: int, aqiMax: int)

  /** The pollutant tags the table knows, in the table's order. */
  const Pollutants: seq<string> := ["pm25", "pm10", "o3", "no2", "so2", "co"]

  /** The lower and upper index of each band, shared by all six tables. */
  const BandAqiMins: seq<int> := [0, 51, 101, 151, 201, 301]
  const BandAqiMaxes: seq<int> := [50, 100, 150, 200, 300, 500]

  /** The six tables of `AQI_BREAKPOINTS`, in band order. */
  const Pm25Bands: seq<Breakpoint> := [
    Breakpoint(0.0, 12.0, 0, 50),
    Breakpoint(12.1, 35.4, 51, 100),
    Breakpoint(35.5, 55.4, 101, 150),
    Breakpoint(55.5, 150.4, 151, 200),
    Breakpoint(150.5, 250.4, 201, 300),
    Breakpoint(250.5, 500.4, 301, 500)]

  const Pm10Bands: seq<Breakpoint> := [
    Breakpoint(0.0, 54.0, 0, 50),
    Breakpoint(55.0, 154.0, 51, 100),
    Breakpoint(155.0, 254.0, 101, 150),
    Breakpoint(255.0, 354.0, 151, 200),
    Breakpoint(355.0, 424.0, 201, 300),
    Breakpoint(425.0, 604.0, 301, 500)]

  const O3Bands: seq<Breakpoint> := [
    Breakpoint(0.0, 0.054, 0, 50),
    Breakpoint(0.055, 0.070, 51, 100),
    Breakpoint(0.071, 0.085, 101, 150),
    Breakpoint(0.086, 0.105, 151, 200),
    Breakpoint(0.106, 0.200, 201, 300),
    Breakpoint(0.201, 0.604, 301, 500)]

  const No2Bands: seq<Breakpoint> := [
    Breakpoint(0.0, 0.053, 0, 50),
    Breakpoint(0.054, 0.100, 51, 100),
    Breakpoint(0.101, 0.360, 101, 150),
    Breakpoint(0.361, 0.649, 151, 200),
    Breakpoint(0.650, 1.249, 201, 300),
    Breakpoint(1.250, 2.049, 301, 500)]

  const So2Bands: seq<Breakpoint> := [
    Breakpoint(0.0, 0.035, 0, 50),
    Breakpoint(0.036, 0.075, 51, 100),
    Breakpoint(0.076, 0.185, 101, 150),
    Breakpoint(0.186, 0.304, 151, 200),
    Breakpoint(0.305, 0.604, 201, 300),
    Breakpoint(0.605, 1.004, 301, 500)]

  const CoBands: seq<Breakpoint> := [
    Breakpoint(0.0, 4.4, 0, 50),
    Breakpoint(4.5, 9.4, 51, 100),
    Breakpoint(9.5, 12.4, 101, 150),
    Breakpoint(12.5, 15.4, 151, 200),
    Breakpoint(15.5, 30.4, 201, 300),
    Breakpoint(30.5, 50.4, 301, 500)]

  /** `AQI_BREAKPOINTS[pollutant]`, None for a tag the table lacks. */
  function Breakpoints(pollutant: string): Option<seq<Breakpoint>>
  {
    if pollutant == "pm25" then Some(Pm25Bands)
    else if pollutant == "pm10" then Some(Pm10Bands)
    else if pollutant == "o3" then Some(O3Bands)
    else if pollutant == "no2" then Some(No2Bands)
    else if pollutant == "so2" then Some(So2Bands)
    else if pollutant == "co" then Some(CoBands)
    else None
  }

  predicate InBand(bp: Breakpoint, v: real) {
    bp.min <= v <= bp.max
  }

  /**
    * A usable table: every band is a proper interval mapped onto a part of
    * [0, 500], and the bands come in ascending order without overlapping.
    */
  predicate WellFormed(bands: seq<Breakpoint>) {
    (forall k :: 0 <= k < |bands| ==>
      bands[k].min < bands[k].max && 0 <= bands[k].aqiMin <= bands[k].aqiMax <= 500) &&
    (forall j, k :: 0 <= j < k < |bands| ==> bands[j].max < bands[k].min)
  }

  /** Each band a proper interval within [0, 500], and each band ending below the start of the next. */
  predicate Ascending(bands: seq<Breakpoint>) {
    forall k :: 0 <= k < |bands| ==>
      bands[k].min < bands[k].max && 0 <= bands[k].aqiMin <= bands[k].aqiMax <= 500 &&
      (k + 1 < |bands| ==> bands[k].max < bands[k + 1].min)
  }

  /** Neighbouring bands in order put every earlier band below every later one. */
  lemma AscendingWellFormed(bands: seq<Breakpoint>)
    requires Ascending(bands)
    ensures WellFormed(bands)
  {
    forall j, k | 0 <= j < k < |bands|
      ensures bands[j].max < bands[k].min
    {
      BelowLater(bands, j, k);
    }
  }

  lemma {:induction false} BelowLater(bands: seq<Breakpoint>, j: nat, k: nat)
    requires Ascending(bands) && j < k < |bands|
    ensures bands[j].max < bands[k].min
    decreases k - j
  {
    if j + 1 < k {
      BelowLater(bands, j + 1, k);
      assert bands[j + 1].min < bands[j + 1].max;
    }
  }

  /** Six well-formed bands carrying the EPA index ranges 0-50, 51-100, ..., 301-500. */
  predicate EpaShape(bands: seq<Breakpoint>) {
    |bands| == 6 && WellFormed(bands) &&
    forall k :: 0 <= k < 6 ==> bands[k].aqiMin == BandAqiMins[k] && bands[k].aqiMax == BandAqiMaxes[k]
  }

  /** Every known tag has six well-formed bands with the EPA index ranges. */
  lemma TableShape(pollutant: string)
    requires pollutant in Pollutants
    ensures Breakpoints(pollutant).Some? && EpaShape(Breakpoints(pollutant).value)
  {
    if pollutant == "pm25" {
      Pm25Shape();
    } else if pollutant == "pm10" {
      Pm10Shape();
    } else if pollutant == "o3" {
      O3Shape();
    } else if pollutant == "no2" {
      No2Shape();
    } else if pollutant == "so2" {
      So2Shape();
    } else {
      CoShape();
    }
  }

  lemma Pm25Shape()
    ensures EpaShape(Pm25Bands)
  {
    AscendingWellFormed(Pm25Bands);
  }

  lemma Pm10Shape()
    ensures EpaShape(Pm10Bands)
  {
    AscendingWellFormed(Pm10Bands);
  }

  lemma O3Shape()
    ensures EpaShape(O3Bands)
  {
    AscendingWellFormed(O3Bands);
  }

  lemma No2Shape()
    ensures EpaShape(No2Bands)
  {
    AscendingWellFormed(No2Bands);
  }

  lemma So2Shape()
    ensures EpaShape(So2Bands)
  {
    AscendingWellFormed(So2Bands);
  }

  lemma CoShape()
    ensures EpaShape(CoBands)
  {
    AscendingWellFormed(CoBands);
  }

  /** A tag outside the six known ones has no table. */
  lemma UnknownTagHasNoTable(pollutant: string)
    ensures Breakpoints(pollutant).Some? <==> pollutant in Pollutants
  {
  }

  // ---------------------------------------------------------------------
  // The index of one concentration
  // ---------------------------------------------------------------------

  /** `Math.round(((aqiMax - aqiMin) / (max - min)) * (v - min) + aqiMin)`. */
  function Interpolate(bp: Breakpoint, v: real): int
    requires bp.min < bp.max
  {
    Round((bp.aqiMax - bp.aqiMin) as real / (bp.max - bp.min) * (v - bp.min) + bp.aqiMin as real)
  }

  /** Inside its band the interpolated index stays within the band's index range. */
  lemma InterpolateWithin(bp: Breakpoint, v: real)
    requires bp.min < bp.max && bp.aqiMin <= bp.aqiMax
    requires InBand(bp, v)
    ensures bp.aqiMin <= Interpolate(bp, v) <= bp.aqiMax
  {
    var slope := (bp.aqiMax - bp.aqiMin) as real / (bp.max - bp.min);
    var span := bp.max - bp.min;
    assert slope * span == (bp.aqiMax - bp.aqiMin) as real;
    MulMonotone(slope, v - bp.min, span);
    var x := slope * (v - bp.min) + bp.aqiMin as real;
    assert bp.aqiMin as real <= x <= bp.aqiMax as real;
    RoundWithin(x, bp.aqiMin, bp.aqiMax);
    assert Interpolate(bp, v) == Round(x);
  }

  lemma MulMonotone(a: real, x: real, y: real)
    requires a >= 0.0 && 0.0 <= x <= y
    ensures 0.0 <= a * x <= a * y
  {
  }

  /** A band's lower end gives its lower index and its upper end its upper index. */
  lemma InterpolateEnds(bp: Breakpoint)
    requires bp.min < bp.max
    ensures Interpolate(bp, bp.min) == bp.aqiMin
    ensures Interpolate(bp, bp.max) == bp.aqiMax
  {
    var slope := (bp.aqiMax - bp.aqiMin) as real / (bp.max - bp.min);
    assert slope * (bp.max - bp.min) == (bp.aqiMax - bp.aqiMin) as real;
    RoundOfInt(bp.aqiMin);
    RoundOfInt(bp.aqiMax);
  }

  /** Within a band the index never decreases as the concentration grows. */
  lemma InterpolateMonotone(bp: Breakpoint, v: real, w: real)
    requires bp.min < bp.max && bp.aqiMin <= bp.aqiMax
    requires v <= w
    ensures Interpolate(bp, v) <= Interpolate(bp, w)
  {
    var slope := (bp.aqiMax - bp.aqiMin) as real / (bp.max - bp.min);
    assert slope >= 0.0;
    assert slope * (v - bp.min) <= slope * (w - bp.min) by {
      MulLe(slope, v - bp.min, w - bp.min);
    }
    RoundMonotone(slope * (v - bp.min) + bp.aqiMin as real, slope * (w - bp.min) + bp.aqiMin as real);
  }

  lemma MulLe(a: real, x: real, y: real)
    requires a >= 0.0 && x <= y
    ensures a * x <= a * y
  {
  }

  /**
    * The first band (in table order) containing v decides the index; a
    * value in no band gives 500.
    */
  function Lookup(bands: seq<Breakpoint>, v: real): (aqi: int)
    requires WellFormed(bands)
    ensures 0 <= aqi <= 500
  {
    if bands == [] then 500
    else if InBand(bands[0], v) then
      InterpolateWithin(bands[0], v);
      Interpolate(bands[0], v)
    else Lookup(bands[1..], v)
  }

  /** In a well-formed table, a value inside band k is interpolated in band k. */
  lemma {:induction false} LookupInBand(bands: seq<Breakpoint>, k: nat, v: real)
    requires WellFormed(bands) && k < |bands|
    requires InBand(bands[k], v)
    ensures Lookup(bands, v) == Interpolate(bands[k], v)
  {
    if k > 0 {
      assert bands[0].max < bands[k].min;
      assert bands[1..][k - 1] == bands[k];
      LookupInBand(bands[1..], k - 1, v);
    }
  }

  /** A value lying in no band of the table gives 500. */
  lemma {:induction false} LookupMiss(bands: seq<Breakpoint>, v: real)
    requires WellFormed(bands)
    requires forall k :: 0 <= k < |bands| ==> !InBand(bands[k], v)
    ensures Lookup(bands, v) == 500
  {
    if bands != [] {
      assert !InBand(bands[0], v);
      assert forall k :: 0 <= k < |bands[1..]| ==> bands[1..][k] == bands[k + 1];
      LookupMiss(bands[1..], v);
    }
  }

  /** The unit guess: a CO value above 50 is taken as µg/m³ and divided by 1000. */
  function Adjusted(pollutant: string, value: real): real {
    if pollutant == "co" && value > 50.0 then value / 1000.0 else value
  }

  /** `calculateAQI(pollutant, value)` as a value. */
  function AqiOf(pollutant: string, value: real): (aqi: int)
    ensures pollutant !in Pollutants ==> aqi == 0
    ensures 0 <= aqi <= 500
  {
    UnknownTagHasNoTable(pollutant);
    match Breakpoints(pollutant)
    case None => 0
    case Some(bands) =>
      TableShape(pollutant);
      Lookup(bands, Adjusted(pollutant, value))
  }

  /**
    * `calculateAQI`: no table gives 0; otherwise the (possibly adjusted)
    * value is looked up in the pollutant's bands.
    */
  method CalculateAqi(pollutant: string, value: real) returns (aqi: int)
    ensures aqi == AqiOf(pollutant, value)
    ensures pollutant !in Pollutants ==> aqi == 0
    ensures 0 <= aqi <= 500
  {
    UnknownTagHasNoTable(pollutant);
    var table := Breakpoints(pollutant);
    if table.None? {
      return 0;
    }
    TableShape(pollutant);
    var adjustedValue := value;
    if pollutant == "co" && value > 50.0 {
      adjustedValue := value / 1000.0;
    }
    aqi := FirstBand(table.value, adjustedValue);
  }

  /**
    * The `for (const bp of breakpoints)` loop of `calculateAQI`: the bands are
    * walked in order, the first one containing v is interpolated, and 500 is
    * returned when none does.
    */
  method FirstBand(breakpoints: seq<Breakpoint>, adjustedValue: real) returns (aqi: int)
    requires WellFormed(breakpoints)
    ensures aqi == Lookup(breakpoints, adjustedValue)
  {
    for i := 0 to |breakpoints|
      invariant Lookup(breakpoints[i..], adjustedValue) == Lookup(breakpoints, adjustedValue)
    {
      var bp := breakpoints[i];
      if adjustedValue >= bp.min && adjustedValue <= bp.max {
        return Interpolate(bp, adjustedValue);
      }
      assert breakpoints[i..][1..] == breakpoints[i + 1..];
    }
    return 500;
  }

  /**
    * Every band of every table is hit exactly at its ends: the lower end
    * gives the band's lower index and the upper end its upper index, except
    * for the upper end of the top carbon-monoxide band (see
    * CoTopBandCeilingMisread).
    */
  lemma BandEnds(pollutant: string, k: nat)
    requires pollutant in Pollutants && k < 6
    ensures var bp := Breakpoints(pollutant).value[k];
      AqiOf(pollutant, bp.min) == bp.aqiMin &&
      (!(pollutant == "co" && k == 5) ==> AqiOf(pollutant, bp.max) == bp.aqiMax)
  {
    TableShape(pollutant);
    var bands := Breakpoints(pollutant).value;
    var bp := bands[k];
    InterpolateEnds(bp);
    assert Adjusted(pollutant, bp.min) == bp.min;
    LookupInBand(bands, k, bp.min);
    if !(pollutant == "co" && k == 5) {
      assert Adjusted(pollutant, bp.max) == bp.max;
      LookupInBand(bands, k, bp.max);
    }
  }

  /** Inside one band the index is non-decreasing and stays in the band's range. */
  lemma WithinBand(pollutant: string, k: nat, v: real, w: real)
    requires pollutant in Pollutants && k < 6
    requires var bp := Breakpoints(pollutant).value[k]; bp.min <= v <= w <= bp.max
    requires pollutant == "co" ==> w <= 50.0
    ensures var bp := Breakpoints(pollutant).value[k];
      bp.aqiMin <= AqiOf(pollutant, v) <= AqiOf(pollutant, w) <= bp.aqiMax
  {
    TableShape(pollutant);
    var bands := Breakpoints(pollutant).value;
    LookupInBand(bands, k, v);
    LookupInBand(bands, k, w);
    InterpolateWithin(bands[k], v);
    InterpolateWithin(bands[k], w);
    InterpolateMonotone(bands[k], v, w);
  }

  /** A negative concentration lies below every band and gives 500. */
  lemma NegativeGives500(pollutant: string, value: real)
    requires pollutant in Pollutants && value < 0.0
    ensures AqiOf(pollutant, value) == 500
  {
    TableShape(pollutant);
    LookupMiss(Breakpoints(pollutant).value, value);
  }

  /** A concentration above the top band gives 500 (for CO, above 50.4 mg/m³ once converted). */
  lemma AboveTopGives500(pollutant: string, value: real)
    requires pollutant in Pollutants
    requires Adjusted(pollutant, value) > Breakpoints(pollutant).value[5].max
    ensures AqiOf(pollutant, value) == 500
  {
    TableShape(pollutant);
    LookupMiss(Breakpoints(pollutant).value, Adjusted(pollutant, value));
  }

  /** Values in the gaps between bands also give 500, e.g. PM2.5 at 12.05. */
  lemma GapGives500()
    ensures AqiOf("pm25", 12.05) == 500
    ensures AqiOf("pm10", 54.5) == 500
  {
    TableShape("pm25");
    LookupMiss(Breakpoints("pm25").value, 12.05);
    TableShape("pm10");
    LookupMiss(Breakpoints("pm10").value, 54.5);
  }

  /** The carbon-monoxide unit guess on three values: 40 and 50 are read as mg/m³, 4500 as µg/m³. */
  lemma CoExamples()
    ensures AqiOf("co", 40.0) == 396
    ensures AqiOf("co", 50.0) == 496
    ensures AqiOf("co", 4500.0) == 51
  {
    CoAt(40.0, 5, 396);
    CoAt(50.0, 5, 496);
    CoAt(4500.0, 1, 51);
  }

  /** The index of a CO value whose adjusted value lies in band k and interpolates near `expected`. */
  lemma CoAt(value: real, k: nat, expected: int)
    requires k < 6
    requires var bp := Breakpoints("co").value[k];
      InBand(bp, Adjusted("co", value)) &&
      var x := (bp.aqiMax - bp.aqiMin) as real / (bp.max - bp.min) * (Adjusted("co", value) - bp.min) + bp.aqiMin as real;
      expected as real - 0.5 <= x < expected as real + 0.5
    ensures AqiOf("co", value) == expected
  {
    TableShape("co");
    LookupInBand(Breakpoints("co").value, k, Adjusted("co", value));
  }

  /**
    * As written, the CO guess divides every value above 50 by 1000, so the
    * top CO band's upper end 50.4 is read as 0.0504 mg/m³ and gives 1.
    */
  lemma CoTopBandCeilingMisread()
    ensures Breakpoints("co").value[5].max == 50.4
    ensures AqiOf("co", 50.4) == 1
  {
    TableShape("co");
    LookupInBand(Breakpoints("co").value, 0, 0.0504);
  }

  /** The unit guess with its threshold at the top band's upper end instead of 50. */
  function AdjustedCorrected(pollutant: string, value: real): real {
    if pollutant == "co" && value > 50.4 then value / 1000.0 else value
  }

  /** calculateAQI with the corrected carbon-monoxide threshold. */
  function AqiOfCorrected(pollutant: string, value: real): (aqi: int)
    ensures pollutant !in Pollutants ==> aqi == 0
    ensures 0 <= aqi <= 500
  {
    match Breakpoints(pollutant)
    case None => 0
    case Some(bands) =>
      TableShape(pollutant);
      Lookup(bands, AdjustedCorrected(pollutant, value))
  }

  /** With the corrected threshold every band of every table is hit exactly at both ends. */
  lemma CorrectedBandEnds(pollutant: string, k: nat)
    requires pollutant in Pollutants && k < 6
    ensures var bp := Breakpoints(pollutant).value[k];
      AqiOfCorrected(pollutant, bp.min) == bp.aqiMin && AqiOfCorrected(pollutant, bp.max) == bp.aqiMax
  {
    TableShape(pollutant);
    var bands := Breakpoints(pollutant).value;
    var bp := bands[k];
    InterpolateEnds(bp);
    assert AdjustedCorrected(pollutant, bp.min) == bp.min;
    assert AdjustedCorrected(pollutant, bp.max) == bp.max;
    LookupInBand(bands, k, bp.min);
    LookupInBand(bands, k, bp.max);
  }

  // ---------------------------------------------------------------------
  // Global station records
  // ---------------------------------------------------------------------

  datatype Measurement = Measurement(parameter: string, value: int, unit: string, lastUpdated: string)

  datatype Coordinates = Coordinates(latitude: Num, longitude: Num)

  /** `AQIData`: one monitoring location as the map shows it. */
  datatype AqiData = AqiData(
    location: string,
    city: string,
    country: string,
    coordinates: Coordinates,
    measurements: seq<Measurement>,
    aqi: int,
    dominantPollutant: string,
    sourceName: string)

  /** `AQIMapData`. */
  datatype AqiMapData = AqiMapData(locations: seq<AqiData>, lastUpdated: string)

  /**
    * One station of the World Air Quality Index bounds query: `lat`, `lon`
    * (None when missing), the station's `aqi` text and `station.name`.
    */
  datatype Station = Station(lat: Option<Num>, lon: Option<Num>, aqi: string, name: Option<string>)

  /** The reply body: its `status` field and its `data` field when that is an array. */
  datatype WaqiBody = WaqiBody(status: string, data: Option<seq<Station>>)

  const WaqiSourceName := "World Air Quality Index"
  const MaxStations := 50

  /** The first filter: truthy coordinates, an aqi other than '-' that parses to an integer. */
  predicate HasReading(s: Station) {
    s.lat.Some? && Truthy(s.lat.value) &&
    s.lon.Some? && Truthy(s.lon.value) &&
    s.aqi != "-" && ParseInt(s.aqi).Some?
  }

  /** `parseInt(station.aqi)`; a NaN (only possible for stations the first filter drops) is read as 0, which the range filter drops alike. */
  function StationAqi(s: Station): int {
    ParseInt(s.aqi).GetOr(0)
  }

  /** The map step: one station as an `AQIData` record; `now` is the ISO time stamp. */
  function ToAqiData(s: Station, now: string): AqiData {
    var aqi := StationAqi(s);
    AqiData(
      location := if s.name.Some? && s.name.value != "" then s.name.value else "Unknown Station",
      city := if s.name.Some? && BeforeComma(s.name.value) != "" then BeforeComma(s.name.value) else "Unknown City",
      country := "Unknown",
      coordinates := Coordinates(s.lat.GetOr(NaN), s.lon.GetOr(NaN)),
      measurements := [Measurement("PM2.5", aqi, "µg/m³", now)],
      aqi := aqi,
      dominantPollutant := "PM2.5",
      sourceName := WaqiSourceName)
  }

  /** The second filter: 0 < aqi <= 500. */
  predicate InRange(d: AqiData) {
    0 < d.aqi <= 500
  }

  /** The second filter read on the station. */
  predicate AqiInRange(s: Station) {
    0 < StationAqi(s) <= 500
  }

  /** A station that survives both filters. */
  predicate Accepted(s: Station) {
    HasReading(s) && AqiInRange(s)
  }

  /** What every record of the chain carries. */
  predicate IsStationRecord(d: AqiData, now: string) {
    0 < d.aqi <= 500 && d.country == "Unknown" && d.dominantPollutant == "PM2.5" &&
    d.sourceName == WaqiSourceName && d.measurements == [Measurement("PM2.5", d.aqi, "µg/m³", now)]
  }

  /** Every record the map step makes carries the station tags. */
  lemma ToAqiDataTags(s: Station, now: string)
    ensures var d := ToAqiData(s, now);
      d.aqi == StationAqi(s) && d.country == "Unknown" && d.dominantPollutant == "PM2.5" &&
      d.sourceName == WaqiSourceName && d.measurements == [Measurement("PM2.5", d.aqi, "µg/m³", now)]
  {
  }

  /** The map step as a function value. */
  function MapStep(now: string): Station -> AqiData {
    s => ToAqiData(s, now)
  }

  /** The station chain: filter, map, filter, `slice(0, 50)`. */
  function StationsToLocations(stations: seq<Station>, now: string): (r: seq<AqiData>)
    ensures |r| <= MaxStations
    ensures forall i :: 0 <= i < |r| ==> IsStationRecord(r[i], now)
  {
    var valid := Filter(stations, HasReading);
    var mapped := Map(valid, MapStep(now));
    var ranged := Filter(mapped, InRange);
    var r := Take(ranged, MaxStations);
    forall i | 0 <= i < |r|
      ensures IsStationRecord(r[i], now)
    {
      assert r[i] == ranged[i];
      var j :| 0 <= j < |mapped| && mapped[j] == ranged[i];
      ToAqiDataTags(valid[j], now);
    }
    r
  }

  /**
    * The chain keeps exactly the accepted stations, in input order, and
    * emits the first 50 of them: output i is the record of accepted
    * station i.
    */
  lemma StationsOrder(stations: seq<Station>, now: string)
    ensures var accepted := Filter(stations, Accepted);
      var r := StationsToLocations(stations, now);
      |r| == (if |accepted| < MaxStations then |accepted| else MaxStations) &&
      forall i :: 0 <= i < |r| ==> r[i] == ToAqiData(accepted[i], now)
  {
    ChainKeepsAccepted(stations, now);
  }

  /** The two filters around the map step amount to one filter by `Accepted` before it. */
  lemma ChainKeepsAccepted(stations: seq<Station>, now: string)
    ensures Filter(Map(Filter(stations, HasReading), MapStep(now)), InRange) ==
      Map(Filter(stations, Accepted), MapStep(now))
  {
    forall x
      ensures AqiInRange(x) == InRange(MapStep(now)(x))
    {
      ToAqiDataTags(x, now);
    }
    FilterMap(Filter(stations, HasReading), MapStep(now), InRange, AqiInRange);
    FilterFilter(stations, HasReading, AqiInRange, Accepted);
  }

  /**
    * Name handling: the location is the station name or 'Unknown Station';
    * the city is the text before the first comma of the name, or 'Unknown
    * City' when that text is empty or there is no name.
    */
  lemma StationNames(s: Station, now: string)
    ensures var d := ToAqiData(s, now);
      (s.name.Some? && s.name.value != "" ==> d.location == s.name.value) &&
      (s.name.None? || s.name.value == "" ==> d.location == "Unknown Station") &&
      (s.name.None? || BeforeComma(s.name.value) == "" ==> d.city == "Unknown City") &&
      (s.name.Some? && s.name.value != "" && s.name.value[0] != ',' ==>
        d.city != "" && d.city <= s.name.value && ',' !in d.city &&
        (|d.city| < |s.name.value| ==> s.name.value[|d.city|] == ','))
  {
  }

  // ---------------------------------------------------------------------
  // Fetch with fallback
  // ---------------------------------------------------------------------

  /** The cases that make `fetchGlobalAQIData` fall back to the demo set. */
  predicate WaqiFails(resp: Http<WaqiBody>) {
    resp.Threw? || !IsOk(resp.status) || resp.body.status != "ok" || resp.body.data.None?
  }

  /**
    * `fetchGlobalAQIData`: the reply is given; a failure of any kind yields
    * the demo set, otherwise the chain's output. `now` is the time stamp.
    */
  function FetchGlobalAqiData(resp: Http<WaqiBody>, now: string): (r: AqiMapData)
    ensures r.lastUpdated == now
    ensures r == DemoAqiData(now) <==> WaqiFails(resp)
    ensures !WaqiFails(resp) ==> forall d :: d in r.locations ==> d.sourceName == WaqiSourceName
  {
    if WaqiFails(resp) then DemoAqiData(now)
    else
      var r := AqiMapData(StationsToLocations(resp.body.data.value, now), now);
      assert r.locations == [] || r.locations[0] in r.locations;
      r
  }

  /** One demo record; its single measurement repeats its aqi. */
  function DemoRecord(name: string, country: string, lat: real, lon: real, aqi: int, now: string): AqiData {
    AqiData(name, name, country, Coordinates(Fin(lat), Fin(lon)),
      [Measurement("PM2.5", aqi, "µg/m³", now)], aqi, "PM2.5", "Demo Data")
  }

  /** `getDemoAQIData`: eight fixed cities. */
  function DemoAqiData(now: string): AqiMapData {
    AqiMapData([
      DemoRecord("New York", "USA", 40.7128, -74.0060, 25, now),
      DemoRecord("London", "UK", 51.5074, -0.1278, 35, now),
      DemoRecord("Tokyo", "Japan", 35.6762, 139.6503, 45, now),
      DemoRecord("Delhi", "India", 28.7041, 77.1025, 180, now),
      DemoRecord("Beijing", "China", 39.9042, 116.4074, 120, now),
      DemoRecord("Los Angeles", "USA", 34.0522, -118.2437, 55, now),
      DemoRecord("Mumbai", "India", 19.0760, 72.8777, 95, now),
      DemoRecord("São Paulo", "Brazil", -23.5505, -46.6333, 75, now)
    ], now)
  }

  const DemoCities: seq<string> := ["New York", "London", "Tokyo", "Delhi", "Beijing", "Los Angeles", "Mumbai", "São Paulo"]
  const DemoAqis: seq<int> := [25, 35, 45, 180, 120, 55, 95, 75]

  /** The demo set: eight cities with their fixed indices, all tagged 'Demo Data', each measurement equal to its aqi. */
  lemma DemoFacts(now: string)
    ensures var ls := DemoAqiData(now).locations;
      |ls| == 8 &&
      forall i :: 0 <= i < 8 ==>
        ls[i].city == DemoCities[i] && ls[i].aqi == DemoAqis[i] && ls[i].sourceName == "Demo Data" &&
        |ls[i].measurements| == 1 && ls[i].measurements[0].value == ls[i].aqi
  {
  }

  // ---------------------------------------------------------------------
  // Six-band classifiers
  // ---------------------------------------------------------------------

  /** The inclusive upper ends of the first five bands. */
  const Cutoffs: seq<int> := [50, 100, 150, 200, 300]

  /** How many of the cut-offs lie strictly below aqi. */
  function CountBelow(cutoffs: seq<int>, aqi: int): (n: nat)
    ensures n <= |cutoffs|
  {
    if cutoffs == [] then 0
    else (if cutoffs[0] < aqi then 1 else 0) + CountBelow(cutoffs[1..], aqi)
  }

  /** The band of an index, 0 (Good) to 5 (Hazardous): the number of cut-offs it exceeds. */
  function BandIndex(aqi: int): (k: nat)
    ensures k <= 5
  {
    CountBelow(Cutoffs, aqi)
  }

  /** A larger index never falls in a lower band. */
  lemma {:induction false} CountBelowMonotone(cutoffs: seq<int>, a: int, b: int)
    requires a <= b
    ensures CountBelow(cutoffs, a) <= CountBelow(cutoffs, b)
  {
    if cutoffs != [] {
      CountBelowMonotone(cutoffs[1..], a, b);
    }
  }

  /** BandIndex spelled out over the five cut-offs. */
  lemma BandIndexUnrolled(aqi: int)
    ensures BandIndex(aqi) ==
      (if 50 < aqi then 1 else 0) + (if 100 < aqi then 1 else 0) + (if 150 < aqi then 1 else 0) +
      (if 200 < aqi then 1 else 0) + (if 300 < aqi then 1 else 0)
  {
    assert [300][1..] == [];
    assert [200, 300][1..] == [300];
    assert [150, 200, 300][1..] == [200, 300];
    assert [100, 150, 200, 300][1..] == [150, 200, 300];
    assert Cutoffs[1..] == [100, 150, 200, 300];
    assert CountBelow([300], aqi) == (if 300 < aqi then 1 else 0);
    assert CountBelow([200, 300], aqi) == (if 200 < aqi then 1 else 0) + CountBelow([300], aqi);
    assert CountBelow([150, 200, 300], aqi) == (if 150 < aqi then 1 else 0) + CountBelow([200, 300], aqi);
    assert CountBelow([100, 150, 200, 300], aqi) == (if 100 < aqi then 1 else 0) + CountBelow([150, 200, 300], aqi);
  }

  /** The band boundaries: band k holds the indices in (Cutoffs[k-1], Cutoffs[k]]. */
  lemma BandIndexBounds(aqi: int)
    ensures var k := BandIndex(aqi);
      (k == 0 || Cutoffs[k - 1] < aqi) && (k == 5 || aqi <= Cutoffs[k])
  {
    BandIndexUnrolled(aqi);
  }

  const AqiColors: seq<string> := ["#00e400", "#ffff00", "#ff7e00", "#ff0000", "#8f3f97", "#7e0023"]
  const AqiCategories: seq<string> := ["Good", "Moderate", "Unhealthy for Sensitive Groups", "Unhealthy", "Very Unhealthy", "Hazardous"]
  const AqiAdvice: seq<string> := [
    "Air quality is satisfactory, and air pollution poses little or no risk.",
    "Air quality is acceptable. However, there may be a risk for some people.",
    "Members of sensitive groups may experience health effects.",
    "Everyone may begin to experience health effects.",
    "Health alert: everyone may experience more serious health effects.",
    "Health warning of emergency conditions. The entire population is more likely to be affected."]

  /** `getAQIColor`. */
  function AqiColor(aqi: int): (c: string)
    ensures c == AqiColors[BandIndex(aqi)]
  {
    BandIndexUnrolled(aqi);
    if aqi <= 50 then "#00e400"
    else if aqi <= 100 then "#ffff00"
    else if aqi <= 150 then "#ff7e00"
    else if aqi <= 200 then "#ff0000"
    else if aqi <= 300 then "#8f3f97"
    else "#7e0023"
  }

  /** `getAQICategory`. */
  function AqiCategory(aqi: int): (c: string)
    ensures c == AqiCategories[BandIndex(aqi)]
  {
    BandIndexUnrolled(aqi);
    if aqi <= 50 then "Good"
    else if aqi <= 100 then "Moderate"
    else if aqi <= 150 then "Unhealthy for Sensitive Groups"
    else if aqi <= 200 then "Unhealthy"
    else if aqi <= 300 then "Very Unhealthy"
    else "Hazardous"
  }

  /** `getAQIHealthAdvice`. */
  function AqiHealthAdvice(aqi: int): (a: string)
    ensures a == AqiAdvice[BandIndex(aqi)]
  {
    BandIndexUnrolled(aqi);
    if aqi <= 50 then AqiAdvice[0]
    else if aqi <= 100 then AqiAdvice[1]
    else if aqi <= 150 then AqiAdvice[2]
    else if aqi <= 200 then AqiAdvice[3]
    else if aqi <= 300 then AqiAdvice[4]
    else AqiAdvice[5]
  }

  /** The three classifiers pick the same band, the one BandIndex counts. */
  lemma ClassifiersAgree(aqi: int)
    ensures AqiColor(aqi) == AqiColors[BandIndex(aqi)]
    ensures AqiCategory(aqi) == AqiCategories[BandIndex(aqi)]
    ensures AqiHealthAdvice(aqi) == AqiAdvice[BandIndex(aqi)]
  {
    BandIndexUnrolled(aqi);
  }

  /** Different bands get different colours and categories. */
  lemma ClassifiersDistinguishBands(a: int, b: int)
    requires BandIndex(a) != BandIndex(b)
    ensures AqiColor(a) != AqiColor(b) && AqiCategory(a) != AqiCategory(b)
  {
    ClassifiersAgree(a);
    ClassifiersAgree(b);
  }
}
