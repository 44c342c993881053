/** The AQI level decision on the result page: three bands, each with a
    background colour, a status line and advice. */
module Severity {

  import opened Wrappers

  datatype Band = Good | Moderate | High

  /** What the result page shows for a band. */
  datatype Banner = Banner(bgColor: string, status: string, message: string)

  /** Highest AQI that is still Good. */
  const GoodUpTo: real := 50.0

  /** Highest AQI that is still Moderate. */
  const ModerateUpTo: real := 100.0

  /** Reference description of the bands as half-open intervals
      (Lower, Upper]; None stands for an unbounded side. */
  function Lower(b: Band): Option<real>
  {
    match b
    case Good => None
    case Moderate => Some(GoodUpTo)
    case High => Some(ModerateUpTo)
  }

  function Upper(b: Band): Option<real>
  {
    match b
    case Good => Some(GoodUpTo)
    case Moderate => Some(ModerateUpTo)
    case High => None
  }

  predicate InBand(b: Band, aqi: real)
  {
    (Lower(b).None? || Lower(b).value < aqi) && (Upper(b).None? || aqi <= Upper(b).value)
  }

  /** Position of a band from cleanest to most polluted. */
  function Rank(b: Band): nat
  {
    match b
    case Good => 0
    case Moderate => 1
    case High => 2
  }

  /** The `if aqi <= 50 / elif aqi <= 100 / else` decision: the chosen band's
      interval holds the AQI. */
  function Classify(aqi: real): (b: Band)
    ensures InBand(b, aqi)
  {
    if aqi <= GoodUpTo then Good
    else if aqi <= ModerateUpTo then Moderate
    else High
  }

  /** A CSS colour written as `#` and six hexadecimal digits. */
  predicate IsHexColour(c: string)
  {
    |c| == 7 && c[0] == '#' &&
    forall i :: 1 <= i < 7 ==> c[i] in "0123456789abcdefABCDEF"
  }

  /** Colour, status and message of each band: the colour is one the
      page's style attribute can take, and the status and advice lines are
      never blank. */
  function BannerOf(b: Band): (banner: Banner)
    ensures IsHexColour(banner.bgColor)
    ensures banner.status != [] && banner.message != []
  {
    match b
    case Good => Banner("#1e7f3f", "\U{1F7E2} Good Air Quality", "Air quality is safe and clean.")
    case Moderate => Banner("#c9a227", "\U{1F7E1} Moderate Pollution", "Sensitive people should be cautious.")
    case High => Banner("#8b1e1e", "\U{1F534} High Pollution", "Avoid outdoor activities. Wear a mask.")
  }

  /** The banner the result page renders for an AQI: the banner of the
      band holding it; the Good banner exactly up to 50, the High banner
      exactly above 100. */
  function Decide(aqi: real): (banner: Banner)
    ensures exists b :: InBand(b, aqi) && banner == BannerOf(b)
    ensures banner == BannerOf(Good) <==> aqi <= GoodUpTo
    ensures banner == BannerOf(High) <==> ModerateUpTo < aqi
  {
    var b := Classify(aqi);
    assert InBand(b, aqi);
    BannerOf(b)
  }

  /** The bands cover every AQI and do not overlap: the band chosen is the
      only one whose interval holds the value. */
  lemma BandsPartition(aqi: real, b: Band)
    ensures InBand(b, aqi) <==> b == Classify(aqi)
  {
  }

  /** A higher AQI never gives a cleaner band. */
  lemma ClassifyMonotone(a1: real, a2: real)
    requires a1 <= a2
    ensures Rank(Classify(a1)) <= Rank(Classify(a2))
  {
  }

  /** The boundaries belong to the lower band: 50 is Good, 100 is Moderate. */
  lemma Boundaries()
    ensures Classify(50.0) == Good && Classify(50.01) == Moderate
    ensures Classify(100.0) == Moderate && Classify(100.01) == High
  {
  }

  /** Different bands show different banners, in every field. */
  lemma BannersDistinct(b1: Band, b2: Band)
    requires b1 != b2
    ensures BannerOf(b1).bgColor != BannerOf(b2).bgColor
    ensures BannerOf(b1).status != BannerOf(b2).status
    ensures BannerOf(b1).message != BannerOf(b2).message
  {
  }
}
