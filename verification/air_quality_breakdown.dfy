/**
  * The air-quality breakdown panel: five pollutant rows, each with a
  * three-level status against its own thresholds and a bar whose width is
  * the reading as a percentage of the row's unhealthy threshold, capped at
  * 100.
  */
module AirQualityBreakdown {
  import opened Js

  /** The `components` prop. */
  datatype Components = Components(pm2_5: real, pm10: real, o3: real, co: real, no2: real)

  /** The components used when the prop is missing. */
  const DefaultComponents := Components(12.0, 25.0, 45.0, 300.0, 15.0)

  /** One row of the panel: a reading and its three thresholds. */
  datatype Row = Row(name: string, value: real, unit: string, good: real, moderate: real, unhealthy: real)

  const Micrograms := "\U{00B5}g/m\U{00B3}"

  /** The rows, in display order; there is no sulphur-dioxide row. */
  function Rows(c: Components): (rows: seq<Row>)
    ensures |rows| == 5
    ensures forall i :: 0 <= i < |rows| ==> rows[i].name != "SO2" && rows[i].unit == Micrograms
  {
    [Row("PM2.5", c.pm2_5, Micrograms, 10.0, 25.0, 50.0),
     Row("PM10", c.pm10, Micrograms, 20.0, 50.0, 100.0),
     Row("Ozone", c.o3, Micrograms, 40.0, 80.0, 120.0),
     Row("CO", c.co, Micrograms, 1000.0, 2000.0, 10000.0),
     Row("NO\U{2082}", c.no2, Micrograms, 20.0, 40.0, 100.0)]
  }

  /** `components = { ... }`: the prop, or the defaults when it is missing. */
  function ComponentsOrDefault(c: Option<Components>): Components {
    match c
    case None => DefaultComponents
    case Some(v) => v
  }

  /** The three levels of `getStatus`, least to most severe. */
  datatype Level = GoodLevel | ModerateLevel | UnhealthyLevel

  /** The object `getStatus` returns. */
  datatype Status = Status(status: string, color: string, bg: string)

  function Rank(l: Level): nat {
    match l
    case GoodLevel => 0
    case ModerateLevel => 1
    case UnhealthyLevel => 2
  }

  /** The texts of a level. */
  function Style(l: Level): Status {
    match l
    case GoodLevel => Status("good", "text-green-400", "bg-green-400/10")
    case ModerateLevel => Status("moderate", "text-yellow-400", "bg-yellow-400/10")
    case UnhealthyLevel => Status("unhealthy", "text-red-400", "bg-red-400/10")
  }

  /** The level `getStatus(value, good, moderate)` picks. */
  function LevelOf(value: real, good: real, moderate: real): (l: Level)
    ensures l == GoodLevel <==> value <= good
    ensures l == ModerateLevel <==> good < value <= moderate
    ensures l == UnhealthyLevel <==> good < value && moderate < value
  {
    if value <= good then GoodLevel
    else if value <= moderate then ModerateLevel
    else UnhealthyLevel
  }

  /** `getStatus(value, good, moderate)`. */
  function GetStatus(value: real, good: real, moderate: real): (s: Status)
    ensures s.status == "good" <==> value <= good
    ensures s.status == "moderate" <==> good < value <= moderate
    ensures s.status == "unhealthy" <==> good < value && moderate < value
  {
    Style(LevelOf(value, good, moderate))
  }

  /** With ordered thresholds, a higher reading never gets a less severe level. */
  lemma LevelMonotone(a: real, b: real, good: real, moderate: real)
    requires good < moderate && a <= b
    ensures Rank(LevelOf(a, good, moderate)) <= Rank(LevelOf(b, good, moderate))
  {
  }

  /** `Math.min(100, value / unhealthy * 100)`, for the positive thresholds of the rows. */
  function BarPercentage(value: real, unhealthy: real): (p: real)
    requires unhealthy > 0.0
    ensures p <= 100.0
    ensures p == 100.0 <==> value >= unhealthy
    ensures value >= 0.0 ==> p >= 0.0
    ensures value < unhealthy ==> p * unhealthy == value * 100.0
  {
    var raw := value / unhealthy * 100.0;
    if raw < 100.0 then raw else 100.0
  }

  /** The bar never shrinks as the reading grows. */
  lemma BarMonotone(a: real, b: real, unhealthy: real)
    requires unhealthy > 0.0 && a <= b
    ensures BarPercentage(a, unhealthy) <= BarPercentage(b, unhealthy)
  {
    assert a / unhealthy <= b / unhealthy;
  }

  /** Every row has ordered, positive thresholds, so the status and the bar of every row are monotone. */
  lemma RowsOrdered(c: Components)
    ensures forall i :: 0 <= i < |Rows(c)| ==>
      0.0 < Rows(c)[i].good < Rows(c)[i].moderate < Rows(c)[i].unhealthy
  {
  }

  /** What one row shows: its status and its bar width. */
  datatype Shown = Shown(row: Row, status: Status, percentage: real)

  /** The `pollutants.map(...)` of the panel. */
  function Breakdown(c: Option<Components>): (shown: seq<Shown>)
    ensures |shown| == 5
    ensures forall i :: 0 <= i < 5 ==>
      shown[i].row == Rows(ComponentsOrDefault(c))[i] &&
      shown[i].percentage <= 100.0 &&
      (shown[i].status.status == "good" <==> shown[i].row.value <= shown[i].row.good)
    ensures forall i :: 0 <= i < 5 ==>
      var r := shown[i].row;
      shown[i].status == GetStatus(r.value, r.good, r.moderate) &&
      r.unhealthy > 0.0 && shown[i].percentage == BarPercentage(r.value, r.unhealthy)
  {
    var rows := Rows(ComponentsOrDefault(c));
    RowsOrdered(ComponentsOrDefault(c));
    seq(5, i requires 0 <= i < 5 =>
      Shown(rows[i], GetStatus(rows[i].value, rows[i].good, rows[i].moderate), BarPercentage(rows[i].value, rows[i].unhealthy)))
  }

  /** With the default components PM2.5, PM10 and ozone show moderate, CO and NO2 good. */
  lemma DefaultLevels()
    ensures var rows := Rows(DefaultComponents);
      LevelOf(rows[0].value, rows[0].good, rows[0].moderate) == ModerateLevel &&
      LevelOf(rows[1].value, rows[1].good, rows[1].moderate) == ModerateLevel &&
      LevelOf(rows[2].value, rows[2].good, rows[2].moderate) == ModerateLevel &&
      LevelOf(rows[3].value, rows[3].good, rows[3].moderate) == GoodLevel &&
      LevelOf(rows[4].value, rows[4].good, rows[4].moderate) == GoodLevel
  {
  }
}
