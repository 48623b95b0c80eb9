/** How `updateDashboard` (lines 741-782) feeds the live temperature to the
    hero high/low widget. */
module Dashboard {
  import opened JsValues
  import opened Sensors
  import opened Readings

  /** A temperature sensor that is listed with a null value reaches the hero
      widget as NaN (line 750); the widget as written then shows NaN for the
      day's high and low whatever the readings were, while the corrected
      widget reduces the readings alone, as it would without a live value. */
  lemma NullLiveTemperature(sensors: seq<Sensor>, readings: seq<Point>)
    requires Find(sensors, TempId).Some? && Find(sensors, TempId).value.value == Null
    ensures UpdateHighLowAsWritten(readings, true, LiveTempValue(sensors)) == HighLow(Some(NaN), Some(NaN))
    ensures TodayCardHighLow(readings, LiveTempValue(sensors)) == TodayCardHighLow(readings, Null)
  {
    assert LiveTempValue(sensors) == Val(ParseFloat(Null));
    LiveNaNPoisonsHighLow(readings);
  }

  /** The hero widget as corrected, fed as on line 750: on the current day it
      shows the extrema of the usable readings and the live temperature when
      that is a number, and a live temperature is never used on another day. */
  method HeroHighLow(sensors: seq<Sensor>, readings: seq<Point>, isToday: bool) returns (hl: HighLow)
    ensures isToday ==> hl == TodayCardHighLow(readings, LiveTempValue(sensors))
    ensures !isToday ==> hl == TodayCardHighLow(readings, Null)
  {
    var liveTempValue := LiveTempValue(sensors);
    hl := UpdateHighLow(readings, isToday, liveTempValue);
  }
}
