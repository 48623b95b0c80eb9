/** Historical readings and their reduction to a day's high and low, in the
    three forms the dashboard script has: the today-card helper (which may
    blend in the live value), the history section's helper, and the hero
    high/low widget. */
module Readings {
  import opened JsValues

  /** One `[timestamp, value]` pair of a readings response.  A `null` entry of
      the array behaves, under `?.`, as `Point(None, Undefined)`. */
  datatype Point = Point(ts: Option<string>, value: JsValue)

  /** `p?.[0]` is truthy: the point has a timestamp that is not empty. */
  predicate HasTimestamp(p: Point) {
    p.ts.Some? && p.ts.value != ""
  }

  /** `{high, low}`: both `null`, or both numbers. */
  datatype HighLow = HighLow(high: Option<Num>, low: Option<Num>)

  /** `{high: Math.max(...values), low: Math.min(...values)}`, or both `null`
      when there are no values. */
  function Extrema(values: seq<Num>): (hl: HighLow)
    ensures hl.high.None? <==> |values| == 0
    ensures hl.low.None? <==> |values| == 0
    ensures |values| > 0 && NaN !in values ==>
      && hl.high.value in values && hl.low.value in values
      && Le(hl.low.value, hl.high.value)
      && forall i :: 0 <= i < |values| ==> Le(hl.low.value, values[i]) && Le(values[i], hl.high.value)
    ensures |values| > 0 && NaN in values ==> hl == HighLow(Some(NaN), Some(NaN))
  {
    JsMaxIsGreatest(values);
    JsMinIsLeast(values);
    if |values| == 0 then HighLow(None, None)
    else
      assert Le(JsMin(values), values[0]) && Le(values[0], JsMax(values)) ==> Le(JsMin(values), JsMax(values)) by {
        if Le(JsMin(values), values[0]) && Le(values[0], JsMax(values)) {
          LeTransitive(JsMin(values), values[0], JsMax(values));
        }
      }
      HighLow(Some(JsMax(values)), Some(JsMin(values)))
  }

  // ---------------------------------------------------------------------------
  // The today-card helper `getDayHighLow(dateKey, liveValue)`.

  /** `v !== null && v !== undefined && !isNaN(v)`: the values this helper keeps. */
  predicate Usable(v: JsValue) {
    v != Null && v != Undefined && !IsNaN(v)
  }

  /** `readings.map(r => r?.[1]).filter(Usable).map(Number)` */
  function UsableValues(readings: seq<Point>): (vs: seq<Num>)
    ensures |vs| <= |readings|
    ensures forall x :: x in vs <==> exists j :: 0 <= j < |readings| && Usable(readings[j].value) && readings[j].value.n == x
  {
    if |readings| == 0 then []
    else
      var init, last := readings[..|readings| - 1], readings[|readings| - 1];
      assert forall j :: 0 <= j < |init| ==> init[j] == readings[j];
      UsableValues(init) + (if Usable(last.value) then [ToNumber(last.value)] else [])
  }

  /** The number `x` is one of the values the today-card helper reduces: a
      usable reading or the usable live value. */
  ghost predicate Candidate(x: Num, readings: seq<Point>, live: JsValue) {
    (exists j :: 0 <= j < |readings| && Usable(readings[j].value) && readings[j].value.n == x)
    || (Usable(live) && live.n == x)
  }

  /** The high and low the today-card helper returns for the readings of one
      day and an optional live value, stated by what they mean. */
  function TodayCardHighLow(readings: seq<Point>, live: JsValue): (hl: HighLow)
    ensures hl.high.None? <==> hl.low.None?
    ensures hl.high.None? <==> (!Usable(live) && forall j :: 0 <= j < |readings| ==> !Usable(readings[j].value))
    ensures hl.high.Some? ==>
      && !hl.high.value.NaN? && !hl.low.value.NaN?
      && Candidate(hl.high.value, readings, live)
      && Candidate(hl.low.value, readings, live)
      && Le(hl.low.value, hl.high.value)
      && (forall j :: 0 <= j < |readings| && Usable(readings[j].value) ==>
            Le(hl.low.value, readings[j].value.n) && Le(readings[j].value.n, hl.high.value))
      && (Usable(live) ==> Le(hl.low.value, live.n) && Le(live.n, hl.high.value))
  {
    var base := UsableValues(readings);
    var values := base + (if Usable(live) then [ToNumber(live)] else []);
    assert forall x :: x in values <==> x in base || (Usable(live) && x == live.n);
    assert Usable(live) ==> values[|values| - 1] == live.n;
    assert forall j :: 0 <= j < |readings| && Usable(readings[j].value) ==> readings[j].value.n in values;
    assert NaN !in values;
    Extrema(values)
  }

  /** The today-card helper, lines 95-110: filters the readings, pushes the
      live value when it is a number, and reduces. */
  method DayHighLowWithLive(readings: seq<Point>, live: JsValue) returns (hl: HighLow)
    ensures hl == TodayCardHighLow(readings, live)
  {
    var values := UsableValues(readings);
    if live != Null && live != Undefined && !IsNaN(live) {
      values := values + [ToNumber(live)];
    }
    assert values == UsableValues(readings) + (if Usable(live) then [ToNumber(live)] else []);
    if |values| == 0 {
      return HighLow(None, None);
    }
    hl := HighLow(Some(JsMax(values)), Some(JsMin(values)));
  }

  // ---------------------------------------------------------------------------
  // The history section's helper `getDayHighLow(deviceId, dateKey)`.

  /** As written (lines 352-354): `readings.map(r => Number(r?.[1])).filter(Number.isFinite)`.
      `Number(null)` is 0, so a null reading is kept as a reading of 0. */
  function FiniteValuesAsWritten(readings: seq<Point>): seq<Num> {
    if |readings| == 0 then []
    else
      var n := ToNumber(readings[|readings| - 1].value);
      FiniteValuesAsWritten(readings[..|readings| - 1]) + (if IsFinite(n) then [n] else [])
  }

  /** As written (lines 352-357). */
  function DayHighLowAsWritten(readings: seq<Point>): HighLow {
    Extrema(FiniteValuesAsWritten(readings))
  }

  /** A day whose only readings are a null and 20 gets a low of 0 as written. */
  lemma NullReadingCountsAsZero()
    ensures DayHighLowAsWritten([Point(Some("2025-06-01T00:00:00Z"), Null), Point(Some("2025-06-01T04:00:00Z"), Val(Finite(20.0)))])
         == HighLow(Some(Finite(20.0)), Some(Finite(0.0)))
  {
    var readings := [Point(Some("2025-06-01T00:00:00Z"), Null), Point(Some("2025-06-01T04:00:00Z"), Val(Finite(20.0)))];
    assert readings[..1] == [readings[0]];
    assert readings[..1][..0] == [];
    assert FiniteValuesAsWritten(readings) == [Finite(0.0), Finite(20.0)];
    assert [Finite(0.0), Finite(20.0)][..1] == [Finite(0.0)];
  }

  /** A finite reading: present, a number, neither NaN nor infinite. */
  predicate FiniteReading(v: JsValue) {
    v.Val? && IsFinite(v.n)
  }

  /** Corrected: the finite readings, with a null dropped like a missing value. */
  function FiniteValues(readings: seq<Point>): (vs: seq<Num>)
    ensures forall x :: x in vs <==> exists j :: 0 <= j < |readings| && FiniteReading(readings[j].value) && readings[j].value.n == x
  {
    if |readings| == 0 then []
    else
      var init, last := readings[..|readings| - 1], readings[|readings| - 1];
      assert forall j :: 0 <= j < |init| ==> init[j] == readings[j];
      FiniteValues(init) + (if FiniteReading(last.value) then [last.value.n] else [])
  }

  /** Corrected `getDayHighLow(deviceId, dateKey)`: the extrema of the day's
      finite readings, or both null when it has none. */
  function DayHighLow(readings: seq<Point>): (hl: HighLow)
    ensures hl.high.None? <==> hl.low.None?
    ensures hl.high.None? <==> forall j :: 0 <= j < |readings| ==> !FiniteReading(readings[j].value)
    ensures hl.high.Some? ==>
      && hl.high.value.Finite? && hl.low.value.Finite?
      && (exists j :: 0 <= j < |readings| && readings[j].value == Val(hl.high.value))
      && (exists j :: 0 <= j < |readings| && readings[j].value == Val(hl.low.value))
      && hl.low.value.r <= hl.high.value.r
      && forall j :: 0 <= j < |readings| && FiniteReading(readings[j].value) ==>
           hl.low.value.r <= readings[j].value.n.r <= hl.high.value.r
  {
    var values := FiniteValues(readings);
    assert forall j :: 0 <= j < |readings| && FiniteReading(readings[j].value) ==> readings[j].value.n in values;
    Extrema(values)
  }

  /** Where no reading is infinite the two helpers agree on the history. */
  lemma {:induction false} HelpersAgreeWithoutInfinities(readings: seq<Point>)
    requires forall j :: 0 <= j < |readings| ==> readings[j].value.Val? ==> !readings[j].value.n.PosInf? && !readings[j].value.n.NegInf?
    ensures DayHighLow(readings) == TodayCardHighLow(readings, Null)
  {
    UsableIsFinite(readings);
  }

  lemma {:induction false} UsableIsFinite(readings: seq<Point>)
    requires forall j :: 0 <= j < |readings| ==> readings[j].value.Val? ==> !readings[j].value.n.PosInf? && !readings[j].value.n.NegInf?
    ensures UsableValues(readings) == FiniteValues(readings)
  {
    if |readings| > 0 {
      UsableIsFinite(readings[..|readings| - 1]);
    }
  }

  // ---------------------------------------------------------------------------
  // The hero widget `updateHighLow(deviceId, referenceDateStr, liveTempValue)`.

  /** As written (lines 223-230): keeps every value that is not null or
      undefined, NaN included, and adds the live value on the current day when
      it is not null or undefined. */
  function WidgetValuesAsWritten(readings: seq<Point>, isToday: bool, live: JsValue): seq<Num> {
    PresentValues(readings) + (if isToday && live != Null && live != Undefined then [ToNumber(live)] else [])
  }

  /** `readings.map(r => r[1]).filter(v => v !== null && v !== undefined)` */
  function PresentValues(readings: seq<Point>): seq<Num> {
    if |readings| == 0 then []
    else
      var v := readings[|readings| - 1].value;
      PresentValues(readings[..|readings| - 1]) + (if v != Null && v != Undefined then [v.n] else [])
  }

  /** As written (lines 223-239). */
  function UpdateHighLowAsWritten(readings: seq<Point>, isToday: bool, live: JsValue): HighLow {
    Extrema(WidgetValuesAsWritten(readings, isToday, live))
  }

  /** The caller passes `parseFloat(tempSensor.value)` (line 750), which is NaN
      when the live temperature is null; on the current day that NaN is pushed
      and both the high and the low become NaN, whatever the readings were. */
  lemma LiveNaNPoisonsHighLow(readings: seq<Point>)
    ensures UpdateHighLowAsWritten(readings, true, Val(ParseFloat(Null))) == HighLow(Some(NaN), Some(NaN))
  {
    var values := WidgetValuesAsWritten(readings, true, Val(ParseFloat(Null)));
    assert values[|values| - 1] == NaN;
  }

  /** Corrected hero widget (lines 223-239): a reading or live value that is
      not a number is dropped like a missing one, so the widget reduces exactly
      the values the today-card helper reduces, with the live value only on
      the current day. */
  method UpdateHighLow(readings: seq<Point>, isToday: bool, live: JsValue) returns (hl: HighLow)
    ensures hl == TodayCardHighLow(readings, if isToday then live else Null)
    ensures !isToday ==> hl == TodayCardHighLow(readings, Null)
  {
    var values := UsableValues(readings);
    if isToday && live != Null && live != Undefined && !IsNaN(live) {
      values := values + [ToNumber(live)];
    }
    ghost var live' := if isToday then live else Null;
    assert values == UsableValues(readings) + (if Usable(live') then [ToNumber(live')] else []);
    if |values| == 0 {
      return HighLow(None, None);
    }
    hl := HighLow(Some(JsMax(values)), Some(JsMin(values)));
  }
}
