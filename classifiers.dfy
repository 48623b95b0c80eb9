/** The threshold tables: the highlight cards' colour bands
    (`updateHighlights`) and the today panel's three-tier quality labels
    (`applyMetric`).  Each is a first-match chain over a JavaScript number, so
    a NaN, for which every comparison is false, falls to the last entry. */
module Classifiers {
  import opened JsValues

  /** The temperature card's bands. */
  datatype TempBand = Cold | Cool | Comfortable | Warm | Hot

  /** The humidity, PM2.5 and noise cards' bands. */
  datatype AirBand = Green | LightGreen | Yellow | Orange | Red

  /** Lines 593-597. */
  function TempCard(v: Num): TempBand {
    if AtMost(v, 10.0) then Cold
    else if AtMost(v, 18.0) then Cool
    else if AtMost(v, 26.0) then Comfortable
    else if AtMost(v, 32.0) then Warm
    else Hot
  }

  /** Lines 601-605. */
  function HumidityCard(v: Num): AirBand {
    if AtLeast(v, 40.0) && AtMost(v, 60.0) then Green
    else if (AtLeast(v, 30.0) && Below(v, 40.0)) || (Above(v, 60.0) && AtMost(v, 70.0)) then LightGreen
    else if (AtLeast(v, 20.0) && Below(v, 30.0)) || (Above(v, 70.0) && AtMost(v, 80.0)) then Yellow
    else if (AtLeast(v, 10.0) && Below(v, 20.0)) || (Above(v, 80.0) && AtMost(v, 90.0)) then Orange
    else Red
  }

  /** Lines 609-613. */
  function Pm25Card(v: Num): AirBand {
    if AtMost(v, 5.0) then Green
    else if AtMost(v, 15.0) then LightGreen
    else if AtMost(v, 25.0) then Yellow
    else if AtMost(v, 50.0) then Orange
    else Red
  }

  /** Lines 617-621. */
  function NoiseCard(v: Num): AirBand {
    if Below(v, 40.0) then Green
    else if AtMost(v, 55.0) then LightGreen
    else if AtMost(v, 65.0) then Yellow
    else if AtMost(v, 75.0) then Orange
    else Red
  }

  function TempRank(b: TempBand): nat {
    match b
    case Cold => 0
    case Cool => 1
    case Comfortable => 2
    case Warm => 3
    case Hot => 4
  }

  function AirRank(b: AirBand): nat {
    match b
    case Green => 0
    case LightGreen => 1
    case Yellow => 2
    case Orange => 3
    case Red => 4
  }

  /** The temperature bands are the intervals (-inf, 10], (10, 18], (18, 26],
      (26, 32] and (32, +inf], NaN going to the last. */
  lemma TempCardIntervals(v: Num)
    ensures TempCard(v) == Cold <==> AtMost(v, 10.0)
    ensures TempCard(v) == Cool <==> Above(v, 10.0) && AtMost(v, 18.0)
    ensures TempCard(v) == Comfortable <==> Above(v, 18.0) && AtMost(v, 26.0)
    ensures TempCard(v) == Warm <==> Above(v, 26.0) && AtMost(v, 32.0)
    ensures TempCard(v) == Hot <==> v.NaN? || Above(v, 32.0)
  {
  }

  /** PM2.5 bands: (-inf, 5], (5, 15], (15, 25], (25, 50], (50, +inf]. */
  lemma Pm25CardIntervals(v: Num)
    ensures Pm25Card(v) == Green <==> AtMost(v, 5.0)
    ensures Pm25Card(v) == LightGreen <==> Above(v, 5.0) && AtMost(v, 15.0)
    ensures Pm25Card(v) == Yellow <==> Above(v, 15.0) && AtMost(v, 25.0)
    ensures Pm25Card(v) == Orange <==> Above(v, 25.0) && AtMost(v, 50.0)
    ensures Pm25Card(v) == Red <==> v.NaN? || Above(v, 50.0)
  {
  }

  /** Noise bands: (-inf, 40), [40, 55], (55, 65], (65, 75], (75, +inf]. */
  lemma NoiseCardIntervals(v: Num)
    ensures NoiseCard(v) == Green <==> Below(v, 40.0)
    ensures NoiseCard(v) == LightGreen <==> AtLeast(v, 40.0) && AtMost(v, 55.0)
    ensures NoiseCard(v) == Yellow <==> Above(v, 55.0) && AtMost(v, 65.0)
    ensures NoiseCard(v) == Orange <==> Above(v, 65.0) && AtMost(v, 75.0)
    ensures NoiseCard(v) == Red <==> v.NaN? || Above(v, 75.0)
  {
  }

  /** The band a humidity reading gets from its distance to 50%: within 10
      green, then a band per further 10 points, red beyond 40. */
  function BandAtDistance(d: real): AirBand {
    if d <= 10.0 then Green
    else if d <= 20.0 then LightGreen
    else if d <= 30.0 then Yellow
    else if d <= 40.0 then Orange
    else Red
  }

  /** The humidity card's two-sided chain is the distance-to-50 rule, and an
      infinite or NaN humidity is red. */
  lemma HumidityCardByDistance(v: Num)
    ensures HumidityCard(v) == if v.Finite? then BandAtDistance(if v.r < 50.0 then 50.0 - v.r else v.r - 50.0) else Red
  {
  }

  /** A higher temperature never gets a colder band. */
  lemma TempCardMonotone(a: Num, b: Num)
    requires Le(a, b)
    ensures TempRank(TempCard(a)) <= TempRank(TempCard(b))
  {
  }

  /** A higher PM2.5 concentration never gets a better band. */
  lemma Pm25CardMonotone(a: Num, b: Num)
    requires Le(a, b)
    ensures AirRank(Pm25Card(a)) <= AirRank(Pm25Card(b))
  {
  }

  /** A louder reading never gets a better band. */
  lemma NoiseCardMonotone(a: Num, b: Num)
    requires Le(a, b)
    ensures AirRank(NoiseCard(a)) <= AirRank(NoiseCard(b))
  {
  }

  /** A humidity further from 50% never gets a better band. */
  lemma HumidityCardMonotoneInDistance(a: real, b: real)
    requires (if a < 50.0 then 50.0 - a else a - 50.0) <= (if b < 50.0 then 50.0 - b else b - 50.0)
    ensures AirRank(HumidityCard(Finite(a))) <= AirRank(HumidityCard(Finite(b)))
  {
    HumidityCardByDistance(Finite(a));
    HumidityCardByDistance(Finite(b));
  }

  // ---------------------------------------------------------------------------
  // The today panel's quality labels (`applyMetric`, lines 633-669).

  /** `qualityClass` before rendering. */
  datatype Tier = Blue | Good | Moderate | Bad

  /** `{qualityText, qualityClass}` */
  datatype Quality = Quality(text: string, tier: Tier)

  /** Lines 638-640. */
  function TempQuality(v: Num): Quality {
    if AtMost(v, 10.0) then Quality("Cold", Blue)
    else if Below(v, 25.0) then Quality("Normal", Good)
    else Quality("Hot", Bad)
  }

  /** Lines 647-649. */
  function HumidityQuality(v: Num): Quality {
    if Below(v, 30.0) then Quality("Dry", Moderate)
    else if AtMost(v, 60.0) then Quality("Ideal", Good)
    else Quality("Humid", Bad)
  }

  /** Lines 656-658. */
  function Pm25Quality(v: Num): Quality {
    if AtMost(v, 12.0) then Quality("Good", Good)
    else if AtMost(v, 35.4) then Quality("Moderate", Moderate)
    else Quality("Unhealthy", Bad)
  }

  /** Lines 665-667. */
  function NoiseQuality(v: Num): Quality {
    if Below(v, 40.0) then Quality("Quiet", Good)
    else if AtMost(v, 70.0) then Quality("Normal", Moderate)
    else Quality("Loud", Bad)
  }

  /** Each label table splits the number line into three intervals, NaN
      taking the last label. */
  lemma QualityIntervals(v: Num)
    ensures TempQuality(v).text == "Cold" <==> AtMost(v, 10.0)
    ensures TempQuality(v).text == "Normal" <==> Above(v, 10.0) && Below(v, 25.0)
    ensures TempQuality(v).text == "Hot" <==> v.NaN? || AtLeast(v, 25.0)
    ensures HumidityQuality(v).text == "Dry" <==> Below(v, 30.0)
    ensures HumidityQuality(v).text == "Ideal" <==> AtLeast(v, 30.0) && AtMost(v, 60.0)
    ensures HumidityQuality(v).text == "Humid" <==> v.NaN? || Above(v, 60.0)
    ensures Pm25Quality(v).text == "Good" <==> AtMost(v, 12.0)
    ensures Pm25Quality(v).text == "Moderate" <==> Above(v, 12.0) && AtMost(v, 35.4)
    ensures Pm25Quality(v).text == "Unhealthy" <==> v.NaN? || Above(v, 35.4)
    ensures NoiseQuality(v).text == "Quiet" <==> Below(v, 40.0)
    ensures NoiseQuality(v).text == "Normal" <==> AtLeast(v, 40.0) && AtMost(v, 70.0)
    ensures NoiseQuality(v).text == "Loud" <==> v.NaN? || Above(v, 70.0)
  {
  }

  /** The two temperature tables agree on what is cold, the two noise tables
      on what is quiet, and a good PM2.5 label always sits on a green or
      light-green card. */
  lemma LabelsAgreeWithCards(v: Num)
    ensures TempQuality(v).text == "Cold" <==> TempCard(v) == Cold
    ensures NoiseQuality(v).text == "Quiet" <==> NoiseCard(v) == Green
    ensures Pm25Quality(v).text == "Good" ==> AirRank(Pm25Card(v)) <= 1
    ensures Pm25Card(v) == Green ==> Pm25Quality(v).text == "Good"
  {
    if Pm25Quality(v).text == "Good" {
      LeTransitive(v, Finite(12.0), Finite(15.0));
    }
    if Pm25Card(v) == Green {
      LeTransitive(v, Finite(5.0), Finite(12.0));
    }
  }
}
