/**
  * The index badge: a six-level classifier giving a label and two colour
  * classes that share one suffix, and the padding classes of three sizes.
  */
module AqiBadge {
  import opened Js
  import AqiApi

  /** The object `getAQILevel` returns. */
  datatype AqiLevel = AqiLevel(level: string, color: string, textColor: string)

  /** The colour suffix of each level. */
  const Suffixes: seq<string> := ["aqi-good", "aqi-moderate", "aqi-unhealthySensitive", "aqi-unhealthy", "aqi-veryUnhealthy", "aqi-hazardous"]

  /** `getAQILevel(value)`. */
  function GetAqiLevel(value: int): (l: AqiLevel)
    ensures l == Levels[AqiApi.BandIndex(value)]
  {
    AqiApi.BandIndexUnrolled(value);
    if value <= 50 then AqiLevel("Good", "bg-aqi-good", "text-aqi-good")
    else if value <= 100 then AqiLevel("Moderate", "bg-aqi-moderate", "text-aqi-moderate")
    else if value <= 150 then AqiLevel("Unhealthy for Sensitive", "bg-aqi-unhealthySensitive", "text-aqi-unhealthySensitive")
    else if value <= 200 then AqiLevel("Unhealthy", "bg-aqi-unhealthy", "text-aqi-unhealthy")
    else if value <= 300 then AqiLevel("Very Unhealthy", "bg-aqi-veryUnhealthy", "text-aqi-veryUnhealthy")
    else AqiLevel("Hazardous", "bg-aqi-hazardous", "text-aqi-hazardous")
  }

  /** The six levels in band order. */
  const Levels: seq<AqiLevel> := [
    AqiLevel("Good", "bg-aqi-good", "text-aqi-good"),
    AqiLevel("Moderate", "bg-aqi-moderate", "text-aqi-moderate"),
    AqiLevel("Unhealthy for Sensitive", "bg-aqi-unhealthySensitive", "text-aqi-unhealthySensitive"),
    AqiLevel("Unhealthy", "bg-aqi-unhealthy", "text-aqi-unhealthy"),
    AqiLevel("Very Unhealthy", "bg-aqi-veryUnhealthy", "text-aqi-veryUnhealthy"),
    AqiLevel("Hazardous", "bg-aqi-hazardous", "text-aqi-hazardous")]

  /** The badge picks the band the service's classifiers pick. */
  lemma LevelFollowsBands(value: int)
    ensures GetAqiLevel(value) == Levels[AqiApi.BandIndex(value)]
  {
    AqiApi.BandIndexUnrolled(value);
  }

  /** A level whose two colour classes are the background and text forms of one suffix. */
  predicate Shares(l: AqiLevel, suffix: string) {
    ClassesOf(l.color, l.textColor, suffix)
  }

  /** The two colour classes built from one suffix. */
  predicate ClassesOf(color: string, textColor: string, suffix: string) {
    color == "bg-" + suffix && textColor == "text-" + suffix
  }

  /** A string made of p followed by s is p + s. */
  lemma Joined(w: string, p: string, s: string)
    requires |p| <= |w| && w[..|p|] == p && w[|p|..] == s
    ensures w == p + s
  {
    assert w == w[..|p|] + w[|p|..];
  }

  // One lemma per level: each class literal is split at the end of its prefix.

  lemma ClassesOfGood()
    ensures ClassesOf("bg-aqi-good", "text-aqi-good", "aqi-good")
  {
    Joined("bg-aqi-good", "bg-", "aqi-good");
    Joined("text-aqi-good", "text-", "aqi-good");
  }

  lemma ClassesOfModerate()
    ensures ClassesOf("bg-aqi-moderate", "text-aqi-moderate", "aqi-moderate")
  {
    Joined("bg-aqi-moderate", "bg-", "aqi-moderate");
    Joined("text-aqi-moderate", "text-", "aqi-moderate");
  }

  lemma ClassesOfSensitive()
    ensures ClassesOf("bg-aqi-unhealthySensitive", "text-aqi-unhealthySensitive", "aqi-unhealthySensitive")
  {
    SensitiveBackground();
    SensitiveText();
  }

  lemma SensitiveBackground()
    ensures "bg-aqi-unhealthySensitive" == "bg-" + "aqi-unhealthySensitive"
  {
    Joined("bg-aqi-unhealthySensitive", "bg-", "aqi-unhealthySensitive");
  }

  lemma SensitiveText()
    ensures "text-aqi-unhealthySensitive" == "text-" + "aqi-unhealthySensitive"
  {
    Joined("text-aqi-unhealthySensitive", "text-", "aqi-unhealthySensitive");
  }

  lemma ClassesOfUnhealthy()
    ensures ClassesOf("bg-aqi-unhealthy", "text-aqi-unhealthy", "aqi-unhealthy")
  {
    Joined("bg-aqi-unhealthy", "bg-", "aqi-unhealthy");
    Joined("text-aqi-unhealthy", "text-", "aqi-unhealthy");
  }

  lemma ClassesOfVeryUnhealthy()
    ensures ClassesOf("bg-aqi-veryUnhealthy", "text-aqi-veryUnhealthy", "aqi-veryUnhealthy")
  {
    Joined("bg-aqi-veryUnhealthy", "bg-", "aqi-veryUnhealthy");
    Joined("text-aqi-veryUnhealthy", "text-", "aqi-veryUnhealthy");
  }

  lemma ClassesOfHazardous()
    ensures ClassesOf("bg-aqi-hazardous", "text-aqi-hazardous", "aqi-hazardous")
  {
    Joined("bg-aqi-hazardous", "bg-", "aqi-hazardous");
    Joined("text-aqi-hazardous", "text-", "aqi-hazardous");
  }

  /** Within each level the two colour classes are the background and text forms of one suffix. */
  lemma SharedSuffix(k: nat)
    requires k < |Levels|
    ensures Shares(Levels[k], Suffixes[k])
  {
    match k
    case 0 => ClassesOfGood();
    case 1 => ClassesOfModerate();
    case 2 => ClassesOfSensitive();
    case 3 => ClassesOfUnhealthy();
    case 4 => ClassesOfVeryUnhealthy();
    case 5 => ClassesOfHazardous();
  }

  /** The badge's label is the service's category except in the 101-150 band, where only the wording differs. */
  lemma LabelAgainstCategory(value: int)
    ensures AqiApi.BandIndex(value) != 2 ==> GetAqiLevel(value).level == AqiApi.AqiCategory(value)
    ensures AqiApi.BandIndex(value) == 2 ==>
      GetAqiLevel(value).level == "Unhealthy for Sensitive" &&
      AqiApi.AqiCategory(value) == "Unhealthy for Sensitive Groups"
  {
    AqiApi.BandIndexUnrolled(value);
  }

  datatype Size = Sm | Md | Lg

  /** The size used when the prop is missing. */
  const DefaultSize := Md

  /** `sizeClasses[size]`. */
  function SizeClasses(size: Size): string {
    match size
    case Sm => "px-3 py-1 text-xs"
    case Md => "px-4 py-2 text-sm"
    case Lg => "px-6 py-3 text-base"
  }

  /** What the badge shows: the pill's background and padding, and the label with its text colour. */
  datatype Badge = Badge(pillColor: string, pillSize: string, level: string, levelColor: string)

  /** `AQIBadge({ value, size })`. */
  function Render(value: int, size: Option<Size>): (b: Badge)
    ensures b.pillSize == SizeClasses(size.GetOr(DefaultSize))
    ensures b.level == GetAqiLevel(value).level
    ensures b.pillColor == GetAqiLevel(value).color && b.levelColor == GetAqiLevel(value).textColor
  {
    var l := GetAqiLevel(value);
    Badge(l.color, SizeClasses(size.GetOr(DefaultSize)), l.level, l.textColor)
  }

  /** Leaving the size out is asking for the medium size. */
  lemma DefaultSizeIsMedium(value: int)
    ensures Render(value, None) == Render(value, Some(Md))
    ensures Render(value, None).pillSize == "px-4 py-2 text-sm"
  {
  }
}
