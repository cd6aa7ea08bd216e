/**
  * The wind radar: four strength bands with strict upper bounds, each with
  * a label, a colour and a glow intensity, and the eight compass points
  * drawn around the dial.
  */
module WindDirectionRadar {

  /** The object `getWindStrength` returns. */
  datatype Strength = Strength(text: string, color: string, intensity: real)

  /** The four strengths, weakest first. */
  const Strengths: seq<Strength> := [
    Strength("Light", "text-green-400", 0.3),
    Strength("Moderate", "text-yellow-400", 0.6),
    Strength("Strong", "text-orange-400", 0.8),
    Strength("Very Strong", "text-red-400", 1.0)]

  /** The upper bounds (exclusive) of the first three bands. */
  const Bounds: seq<real> := [5.0, 15.0, 25.0]

  /** `getWindStrength(speed)`. */
  function GetWindStrength(speed: real): (s: Strength)
    ensures s == Strengths[Band(speed)]
  {
    if speed < 5.0 then Strengths[0]
    else if speed < 15.0 then Strengths[1]
    else if speed < 25.0 then Strengths[2]
    else Strengths[3]
  }

  /** The band of a speed: the number of bounds it has reached. */
  function Band(speed: real): (k: nat)
    ensures k < |Strengths|
    ensures k == 0 || Bounds[k - 1] <= speed
    ensures k == 3 || speed < Bounds[k]
  {
    if speed < 5.0 then 0 else if speed < 15.0 then 1 else if speed < 25.0 then 2 else 3
  }

  /** The strength shown is the one of the speed's band. */
  lemma StrengthByBand(speed: real)
    ensures GetWindStrength(speed) == Strengths[Band(speed)]
  {
  }

  /** The intensity is in (0, 1], and reaches 1 exactly from 25 on. */
  lemma IntensityBounds(speed: real)
    ensures 0.0 < GetWindStrength(speed).intensity <= 1.0
    ensures GetWindStrength(speed).intensity == 1.0 <==> speed >= 25.0
  {
  }

  /** A faster wind never glows less, and never gets a weaker band. */
  lemma IntensityMonotone(a: real, b: real)
    requires a <= b
    ensures GetWindStrength(a).intensity <= GetWindStrength(b).intensity
    ensures Band(a) <= Band(b)
  {
  }

  /** The props' defaults. */
  const DefaultDirection := 0.0
  const DefaultSpeed := 0.0

  /** With no props the radar points north and shows a light wind. */
  lemma DefaultIsLight()
    ensures GetWindStrength(DefaultSpeed).text == "Light"
    ensures DefaultDirection == 0.0
  {
  }

  /** A label on the dial and the angle at which it is drawn. */
  datatype CompassPoint = CompassPoint(text: string, angle: int)

  const CompassPoints: seq<CompassPoint> := [
    CompassPoint("N", 0), CompassPoint("NE", 45), CompassPoint("E", 90), CompassPoint("SE", 135),
    CompassPoint("S", 180), CompassPoint("SW", 225), CompassPoint("W", 270), CompassPoint("NW", 315)]

  /** Eight points, a quarter-right-angle apart from north, with eight different labels. */
  lemma CompassLayout()
    ensures |CompassPoints| == 8
    ensures forall i :: 0 <= i < |CompassPoints| ==> CompassPoints[i].angle == 45 * i
    ensures forall i, j :: 0 <= i < j < |CompassPoints| ==> CompassPoints[i].text != CompassPoints[j].text
  {
  }
}
