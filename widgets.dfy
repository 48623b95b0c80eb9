/** What the widgets of the page compute from the live sensors before they
    write it out: the highlight cards' colour classes, the today panel's
    quality label, the weather icons, the unit text and the temperature bar's
    knob position.  A widget's element list is a set of class names. */
module Widgets {
  import opened JsValues
  import opened Sensors
  import opened Classifiers

  // ---------------------------------------------------------------------------
  // The highlight cards (`updateHighlights`, lines 544-625).

  /** A card's `data-type`. */
  datatype CardType = TempType | HumidityType | Pm25Type | NoiseType

  /** Lines 553-558: the card types the switch knows, with their sensors. */
  function CardTypeOf(name: string): (t: Option<CardType>)
    ensures t == Some(TempType) <==> name == "temp"
    ensures t == Some(HumidityType) <==> name == "humidity"
    ensures t == Some(Pm25Type) <==> name == "pm25"
    ensures t == Some(NoiseType) <==> name == "noise-level"
    ensures t.None? <==> !(name == "temp" || name == "humidity" || name == "pm25" || name == "noise-level")
  {
    if name == "temp" then Some(TempType)
    else if name == "humidity" then Some(HumidityType)
    else if name == "pm25" then Some(Pm25Type)
    else if name == "noise-level" then Some(NoiseType)
    else None
  }

  /** The sensor each card type reads (lines 554-557). */
  function SensorOf(t: CardType): (id: int)
    ensures t == TempType ==> id == TempId
    ensures t == HumidityType ==> id == HumidityId
    ensures t == Pm25Type ==> id == Pm25Id
    ensures t == NoiseType ==> id == NoiseId
    ensures id in TrackedIds
  {
    match t
    case TempType => TempId
    case HumidityType => HumidityId
    case Pm25Type => Pm25Id
    case NoiseType => NoiseId
  }

  function TempBandClass(b: TempBand): string {
    match b
    case Cold => "card-cold"
    case Cool => "card-cool"
    case Comfortable => "card-comfortable"
    case Warm => "card-warm"
    case Hot => "card-hot"
  }

  function AirBandClass(b: AirBand): string {
    match b
    case Green => "card-green"
    case LightGreen => "card-light-green"
    case Yellow => "card-yellow"
    case Orange => "card-orange"
    case Red => "card-red"
  }

  /** The colour class the switch of lines 591-623 adds for a card value. */
  function ColourClass(t: CardType, v: Num): string {
    match t
    case TempType => TempBandClass(Classifiers.TempCard(v))
    case HumidityType => AirBandClass(Classifiers.HumidityCard(v))
    case Pm25Type => AirBandClass(Classifiers.Pm25Card(v))
    case NoiseType => AirBandClass(Classifiers.NoiseCard(v))
  }

  /** The class each card type adds, as the interval of values that gets it:
      the first-match chains of lines 591-623 read as disjoint intervals, with
      NaN and out-of-range values falling to the hot or red class. */
  lemma ColourClassIntervals(v: Num)
    ensures ColourClass(TempType, v) == "card-cold" <==> AtMost(v, 10.0)
    ensures ColourClass(TempType, v) == "card-cool" <==> Above(v, 10.0) && AtMost(v, 18.0)
    ensures ColourClass(TempType, v) == "card-comfortable" <==> Above(v, 18.0) && AtMost(v, 26.0)
    ensures ColourClass(TempType, v) == "card-warm" <==> Above(v, 26.0) && AtMost(v, 32.0)
    ensures ColourClass(TempType, v) == "card-hot" <==> v.NaN? || Above(v, 32.0)
    ensures ColourClass(HumidityType, v) == "card-green" <==> AtLeast(v, 40.0) && AtMost(v, 60.0)
    ensures ColourClass(HumidityType, v) == "card-light-green" <==>
      (AtLeast(v, 30.0) && Below(v, 40.0)) || (Above(v, 60.0) && AtMost(v, 70.0))
    ensures ColourClass(HumidityType, v) == "card-yellow" <==>
      (AtLeast(v, 20.0) && Below(v, 30.0)) || (Above(v, 70.0) && AtMost(v, 80.0))
    ensures ColourClass(HumidityType, v) == "card-orange" <==>
      (AtLeast(v, 10.0) && Below(v, 20.0)) || (Above(v, 80.0) && AtMost(v, 90.0))
    ensures ColourClass(HumidityType, v) == "card-red" <==> v.NaN? || Below(v, 10.0) || Above(v, 90.0)
    ensures ColourClass(Pm25Type, v) == "card-green" <==> AtMost(v, 5.0)
    ensures ColourClass(Pm25Type, v) == "card-light-green" <==> Above(v, 5.0) && AtMost(v, 15.0)
    ensures ColourClass(Pm25Type, v) == "card-yellow" <==> Above(v, 15.0) && AtMost(v, 25.0)
    ensures ColourClass(Pm25Type, v) == "card-orange" <==> Above(v, 25.0) && AtMost(v, 50.0)
    ensures ColourClass(Pm25Type, v) == "card-red" <==> v.NaN? || Above(v, 50.0)
    ensures ColourClass(NoiseType, v) == "card-green" <==> Below(v, 40.0)
    ensures ColourClass(NoiseType, v) == "card-light-green" <==> AtLeast(v, 40.0) && AtMost(v, 55.0)
    ensures ColourClass(NoiseType, v) == "card-yellow" <==> Above(v, 55.0) && AtMost(v, 65.0)
    ensures ColourClass(NoiseType, v) == "card-orange" <==> Above(v, 65.0) && AtMost(v, 75.0)
    ensures ColourClass(NoiseType, v) == "card-red" <==> v.NaN? || Above(v, 75.0)
  {
    TempCardIntervals(v);
    Pm25CardIntervals(v);
    NoiseCardIntervals(v);
  }

  /** The ten classes removed at lines 585-588. */
  const ColourClasses: set<string> := {
    "card-cold", "card-cool", "card-comfortable", "card-warm", "card-hot",
    "card-green", "card-light-green", "card-yellow", "card-orange", "card-red"
  }

  /** One card's class list after `updateHighlights`: unchanged for an unknown
      type or a missing or null sensor; otherwise every colour class removed
      and the value's band added. */
  function HighlightClasses(typeName: string, sensors: seq<Sensor>, classes: set<string>): set<string> {
    var t := CardTypeOf(typeName);
    if t.None? then classes
    else
      var sensor := Find(sensors, SensorOf(t.value));
      if sensor.None? || sensor.value.value == Null then classes
      else (classes - ColourClasses) + {ColourClass(t.value, ParseFloat(sensor.value.value))}
  }

  /** A coloured card carries exactly one colour class, the band of the
      sensor's value, and keeps all its other classes; a card that is not
      coloured keeps all its classes. */
  lemma HighlightLeavesOneColour(typeName: string, sensors: seq<Sensor>, classes: set<string>)
    ensures var after := HighlightClasses(typeName, sensors, classes);
      var t := CardTypeOf(typeName);
      var coloured := t.Some? && Find(sensors, SensorOf(t.value)).Some? && Find(sensors, SensorOf(t.value)).value.value != Null;
      && after - ColourClasses == classes - ColourClasses
      && (coloured ==> after * ColourClasses == {ColourClass(t.value, ParseFloat(Find(sensors, SensorOf(t.value)).value.value))})
      && (!coloured ==> after == classes)
  {
    var t := CardTypeOf(typeName);
    if t.Some? {
      var sensor := Find(sensors, SensorOf(t.value));
      if sensor.Some? && sensor.value.value != Null {
        var c := ColourClass(t.value, ParseFloat(sensor.value.value));
        assert c in ColourClasses;
        var after := (classes - ColourClasses) + {c};
        assert after * ColourClasses == {c};
      }
    }
  }

  /** Boundary cases of the colour switch: 10 °C is cold, a humidity of 60
      is green and one of 65 light green, 5 µg/m³ is green and a noise of 40
      dB is already light green. */
  lemma ColourExamples()
    ensures ColourClass(TempType, Finite(10.0)) == "card-cold"
    ensures ColourClass(HumidityType, Finite(60.0)) == "card-green"
    ensures ColourClass(HumidityType, Finite(65.0)) == "card-light-green"
    ensures ColourClass(Pm25Type, Finite(5.0)) == "card-green"
    ensures ColourClass(NoiseType, Finite(40.0)) == "card-light-green"
  {
  }

  // ---------------------------------------------------------------------------
  // The today panel's quality label (`applyMetric`, lines 628-692).

  /** Lines 633-671: the metric keys the switch knows, their sensors and tables. */
  function MetricSensor(metricKey: string): (id: Option<int>)
    ensures id == Some(TempId) <==> metricKey == "temperature"
    ensures id == Some(HumidityId) <==> metricKey == "aqi"
    ensures id == Some(Pm25Id) <==> metricKey == "pm25"
    ensures id == Some(NoiseId) <==> metricKey == "noise-level"
    ensures id.None? <==> !(metricKey == "temperature" || metricKey == "aqi" || metricKey == "pm25" || metricKey == "noise-level")
  {
    if metricKey == "temperature" then Some(TempId)
    else if metricKey == "aqi" then Some(HumidityId)
    else if metricKey == "pm25" then Some(Pm25Id)
    else if metricKey == "noise-level" then Some(NoiseId)
    else None
  }

  /** The table each metric key's value is read against. */
  function MetricQuality(metricKey: string, v: Num): (q: Quality)
    requires MetricSensor(metricKey).Some?
    ensures metricKey == "temperature" ==> q == TempQuality(v)
    ensures metricKey == "aqi" ==> q == HumidityQuality(v)
    ensures metricKey == "pm25" ==> q == Pm25Quality(v)
    ensures metricKey == "noise-level" ==> q == NoiseQuality(v)
  {
    if metricKey == "temperature" then TempQuality(v)
    else if metricKey == "aqi" then HumidityQuality(v)
    else if metricKey == "pm25" then Pm25Quality(v)
    else NoiseQuality(v)
  }

  /** Lines 689-690: the class the label is rendered with; "blue" is shown as good. */
  function TierClass(t: Tier): (c: string)
    ensures c in QualityClasses && c != "quality-blue"
    ensures c == "quality-good" <==> t == Blue || t == Good
    ensures c == "quality-moderate" <==> t == Moderate
    ensures c == "quality-bad" <==> t == Bad
  {
    match t
    case Blue => "quality-good"
    case Good => "quality-good"
    case Moderate => "quality-moderate"
    case Bad => "quality-bad"
  }

  const QualityClasses: set<string> := {"quality-good", "quality-moderate", "quality-bad", "quality-blue"}

  /** The label's text and class list after `applyMetric`, or None when the
      metric is unknown or its sensor is missing (the panel is left alone).
      The value is `parseFloat(selectedSensor.value)`. */
  function ApplyMetric(metricKey: string, sensors: seq<Sensor>, classes: set<string>): Option<(string, set<string>)> {
    var id := MetricSensor(metricKey);
    if id.None? then None
    else
      var sensor := Find(sensors, id.value);
      if sensor.None? then None
      else
        var q := MetricQuality(metricKey, ParseFloat(sensor.value.value));
        Some((q.text, (classes - QualityClasses) + {TierClass(q.tier)}))
  }

  /** The label ends with exactly one of good, moderate or bad, never blue,
      the other classes untouched; cold temperatures are shown as good. */
  lemma QualityLabelHasOneClass(metricKey: string, sensors: seq<Sensor>, classes: set<string>)
    ensures var r := ApplyMetric(metricKey, sensors, classes);
      && (r.Some? <==> MetricSensor(metricKey).Some? && Find(sensors, MetricSensor(metricKey).value).Some?)
      && (r.Some? ==>
            && r.value.0 == MetricQuality(metricKey, ParseFloat(Find(sensors, MetricSensor(metricKey).value).value.value)).text
            && r.value.1 - QualityClasses == classes - QualityClasses
            && r.value.1 * QualityClasses == {TierClass(MetricQuality(metricKey, ParseFloat(Find(sensors, MetricSensor(metricKey).value).value.value)).tier)}
            && |r.value.1 * QualityClasses| == 1
            && "quality-blue" !in r.value.1
            && (r.value.0 == "Cold" ==> "quality-good" in r.value.1))
  {
    var r := ApplyMetric(metricKey, sensors, classes);
    if r.Some? {
      var q := MetricQuality(metricKey, ParseFloat(Find(sensors, MetricSensor(metricKey).value).value.value));
      ReplaceQualityClass(classes, TierClass(q.tier));
      if r.value.0 == "Cold" {
        ColdIsBlue(metricKey, ParseFloat(Find(sensors, MetricSensor(metricKey).value).value.value));
      }
    }
  }

  /** The text each metric key puts on the label, as an interval of its
      sensor's value (lines 633-672 and 686): a temperature is "Cold" up to
      10, "Normal" below 25 and "Hot" otherwise; the humidity behind "aqi" is
      "Dry" below 30, "Ideal" up to 60 and "Humid" otherwise; PM2.5 is "Good"
      up to 12, "Moderate" up to 35.4 and "Unhealthy" otherwise; noise is
      "Quiet" below 40, "Normal" up to 70 and "Loud" otherwise. */
  lemma MetricLabelText(metricKey: string, sensors: seq<Sensor>, classes: set<string>)
    ensures var r := ApplyMetric(metricKey, sensors, classes);
      var s := Find(sensors, TempId);
      metricKey == "temperature" && s.Some? ==>
        var v := ParseFloat(s.value.value);
        && r.Some?
        && (r.value.0 == "Cold" <==> AtMost(v, 10.0))
        && (r.value.0 == "Normal" <==> Above(v, 10.0) && Below(v, 25.0))
        && (r.value.0 == "Hot" <==> v.NaN? || AtLeast(v, 25.0))
    ensures var r := ApplyMetric(metricKey, sensors, classes);
      var s := Find(sensors, HumidityId);
      metricKey == "aqi" && s.Some? ==>
        var v := ParseFloat(s.value.value);
        && r.Some?
        && (r.value.0 == "Dry" <==> Below(v, 30.0))
        && (r.value.0 == "Ideal" <==> AtLeast(v, 30.0) && AtMost(v, 60.0))
        && (r.value.0 == "Humid" <==> v.NaN? || Above(v, 60.0))
    ensures var r := ApplyMetric(metricKey, sensors, classes);
      var s := Find(sensors, Pm25Id);
      metricKey == "pm25" && s.Some? ==>
        var v := ParseFloat(s.value.value);
        && r.Some?
        && (r.value.0 == "Good" <==> AtMost(v, 12.0))
        && (r.value.0 == "Moderate" <==> Above(v, 12.0) && AtMost(v, 35.4))
        && (r.value.0 == "Unhealthy" <==> v.NaN? || Above(v, 35.4))
    ensures var r := ApplyMetric(metricKey, sensors, classes);
      var s := Find(sensors, NoiseId);
      metricKey == "noise-level" && s.Some? ==>
        var v := ParseFloat(s.value.value);
        && r.Some?
        && (r.value.0 == "Quiet" <==> Below(v, 40.0))
        && (r.value.0 == "Normal" <==> AtLeast(v, 40.0) && AtMost(v, 70.0))
        && (r.value.0 == "Loud" <==> v.NaN? || Above(v, 70.0))
  {
    var id := MetricSensor(metricKey);
    if id.Some? {
      var s := Find(sensors, id.value);
      if s.Some? {
        QualityIntervals(ParseFloat(s.value.value));
      }
    }
  }

  /** Swapping the quality class for one from the set leaves exactly that one
      and keeps every other class. */
  lemma ReplaceQualityClass(classes: set<string>, c: string)
    requires c in QualityClasses
    ensures var out := (classes - QualityClasses) + {c};
      && out - QualityClasses == classes - QualityClasses
      && out * QualityClasses == {c}
      && |out * QualityClasses| == 1
  {
    var out := (classes - QualityClasses) + {c};
    assert forall x :: x in out * QualityClasses <==> x == c;
    assert out * QualityClasses == {c};
  }

  /** The class each label is shown with (lines 638-667 and 689-690): a
      temperature is good when "Cold" or "Normal" and bad when "Hot";
      humidity is moderate when "Dry", good when "Ideal", bad when "Humid";
      PM2.5 is good, moderate or bad for "Good", "Moderate" or "Unhealthy";
      noise is good, moderate or bad for "Quiet", "Normal" or "Loud". */
  lemma QualityLabelClasses(v: Num)
    ensures var q := TempQuality(v);
      && (TierClass(q.tier) == "quality-good" <==> q.text == "Cold" || q.text == "Normal")
      && (TierClass(q.tier) == "quality-bad" <==> q.text == "Hot")
    ensures var q := HumidityQuality(v);
      && (TierClass(q.tier) == "quality-moderate" <==> q.text == "Dry")
      && (TierClass(q.tier) == "quality-good" <==> q.text == "Ideal")
      && (TierClass(q.tier) == "quality-bad" <==> q.text == "Humid")
    ensures var q := Pm25Quality(v);
      && (TierClass(q.tier) == "quality-good" <==> q.text == "Good")
      && (TierClass(q.tier) == "quality-moderate" <==> q.text == "Moderate")
      && (TierClass(q.tier) == "quality-bad" <==> q.text == "Unhealthy")
    ensures var q := NoiseQuality(v);
      && (TierClass(q.tier) == "quality-good" <==> q.text == "Quiet")
      && (TierClass(q.tier) == "quality-moderate" <==> q.text == "Normal")
      && (TierClass(q.tier) == "quality-bad" <==> q.text == "Loud")
  {
  }

  /** Only the blue tier of the temperature table is labelled "Cold". */
  lemma ColdIsBlue(metricKey: string, v: Num)
    requires MetricSensor(metricKey).Some?
    ensures MetricQuality(metricKey, v).text == "Cold" ==> MetricQuality(metricKey, v).tier == Blue
  {
  }

  // ---------------------------------------------------------------------------
  // Weather icons.

  /** `weatherIcons[iconName] || "weather images/cloud.png"` (lines 525-532). */
  const WeatherIcons: map<string, string> := map[
    "rain" := "weather images/rain_cloud.png",
    "storm" := "weather images/thunder_cloud_and_rain.png",
    "mist" := "weather images/cloud.png",
    "clear" := "weather images/sunny.png"
  ]

  function IconFile(name: string): string {
    if name in WeatherIcons then WeatherIcons[name] else "weather images/cloud.png"
  }

  /** Lines 518-523 and 532: the condition icon for a parsed humidity. */
  function ConditionIconFor(humidity: Num): string {
    var name := if AtLeast(humidity, 75.0) then "rain" else if AtLeast(humidity, 50.0) then "mist" else "clear";
    IconFile(name)
  }

  /** `updateWeatherCondition` (lines 514-533): the icon the condition widget
      shows, or None when the humidity sensor or its value is missing and the
      image is left alone. */
  function ConditionIcon(sensors: seq<Sensor>): (icon: Option<string>)
    ensures icon.None? <==> Find(sensors, HumidityId).None? || Find(sensors, HumidityId).value.value in {Null, Undefined}
    ensures icon.Some? ==>
      var h := ParseFloat(Find(sensors, HumidityId).value.value);
      && (icon.value == "weather images/rain_cloud.png" <==> AtLeast(h, 75.0))
      && (icon.value == "weather images/cloud.png" <==> Below(h, 75.0) && AtLeast(h, 50.0))
      && (icon.value == "weather images/sunny.png" <==> !AtLeast(h, 50.0))
  {
    var hum := Find(sensors, HumidityId);
    if hum.None? || hum.value.value == Null || hum.value.value == Undefined then None
    else Some(ConditionIconFor(ParseFloat(hum.value.value)))
  }

  /** A history day's icon (lines 436-439), from `Number(day.hum)`. */
  function HistoryIcon(hum: JsValue): string {
    var h := ToNumber(hum);
    if IsFinite(h) && Above(h, 75.0) then "weather images/rain_cloud.png"
    else if IsFinite(h) && Above(h, 50.0) then "weather images/cloud.png"
    else "weather images/sunny.png"
  }

  /** The two icon rules use the same pictures and thresholds but compare
      differently: for a finite humidity they agree except at exactly 50 and
      75, where the condition widget already takes the wetter picture. */
  lemma IconRulesAgreeOffThresholds(h: real)
    ensures ConditionIconFor(Finite(h)) == HistoryIcon(Val(Finite(h))) <==> h != 50.0 && h != 75.0
    ensures h == 50.0 ==> ConditionIconFor(Finite(h)) == "weather images/cloud.png" && HistoryIcon(Val(Finite(h))) == "weather images/sunny.png"
    ensures h == 75.0 ==> ConditionIconFor(Finite(h)) == "weather images/rain_cloud.png" && HistoryIcon(Val(Finite(h))) == "weather images/cloud.png"
  {
    assert "weather images/cloud.png" != "weather images/sunny.png";
    assert "weather images/rain_cloud.png" != "weather images/cloud.png";
    assert "weather images/rain_cloud.png" != "weather images/sunny.png";
  }

  // ---------------------------------------------------------------------------

  /** `prettyUnit(unit)` (lines 536-540): nothing for a missing or empty unit,
      " µg/m³" for "ug/m3", otherwise the unit after a space. */
  function PrettyUnit(unit: Option<string>): (text: string)
    ensures text == "" <==> unit.None? || unit.value == ""
    ensures text != "" ==> text[0] == ' '
    ensures unit.Some? && unit.value != "" && unit.value != "ug/m3" ==> text[1..] == unit.value
    ensures unit == Some("ug/m3") ==> text == " µg/m³"
  {
    if unit.None? || unit.value == "" then ""
    else if unit.value == "ug/m3" then " µg/m³"
    else " " + unit.value
  }

  /** The temperature bar (lines 478 and 490-493): the knob's position in
      percent, the value's place on the -5..45 °C scale clamped to 0..100, or
      None when there is no number and the knob is left alone. */
  function TempBarPercent(t: Num): (p: Option<real>)
    ensures p.None? <==> t.NaN?
    ensures p.Some? ==> 0.0 <= p.value <= 100.0
    ensures t.Finite? && -5.0 <= t.r <= 45.0 ==> p == Some((t.r + 5.0) * 2.0)
    ensures AtMost(t, -5.0) ==> p == Some(0.0)
    ensures AtLeast(t, 45.0) ==> p == Some(100.0)
  {
    match t
    case NaN => None
    case PosInf => Some(100.0)
    case NegInf => Some(0.0)
    case Finite(x) =>
      var percentage := ((x - (-5.0)) / (45.0 - (-5.0))) * 100.0;
      Some(if percentage < 0.0 then 0.0 else if percentage > 100.0 then 100.0 else percentage)
  }

  /** The knob position is monotone in the temperature and, strictly inside
      the bar, shows which temperature it stands for. */
  lemma TempBarMonotoneAndInvertible(a: Num, b: Num, p: real)
    requires Le(a, b)
    ensures TempBarPercent(a).value <= TempBarPercent(b).value
    ensures 0.0 < p < 100.0 ==> TempBarPercent(Finite(p / 2.0 - 5.0)) == Some(p)
  {
  }
}
