/** The today card's last-days list (`updateTodayCardLastFiveDays`): which
    days it shows, in which order, and how it writes a high or a low. */
module TodayCard {
  import opened JsValues
  import opened DateKeys
  import opened Readings
  import opened Sensors

  /** An entry of the list: `{date, high, low, isToday}`. */
  datatype DayItem = DayItem(date: string, high: Option<Num>, low: Option<Num>, isToday: bool)

  /** The identity on keys, the sort key of a list of keys. */
  function KeyOf(k: string): string {
    k
  }

  /** `daily.filter(p => p && p[0]).map(p => p[0].split("T")[0])` */
  function DailyKeys(daily: seq<Point>): (keys: seq<string>)
    ensures forall k :: k in keys <==> exists j :: 0 <= j < |daily| && HasTimestamp(daily[j]) && DateKey(daily[j].ts.value) == k
  {
    if |daily| == 0 then []
    else
      var init, last := daily[..|daily| - 1], daily[|daily| - 1];
      assert forall j :: 0 <= j < |init| ==> init[j] == daily[j];
      DailyKeys(init) + (if HasTimestamp(last) then [DateKey(last.ts.value)] else [])
  }

  /** `keys.filter(dateKey => dateKey !== todayKey)` */
  function WithoutKey(keys: seq<string>, todayKey: string): (rest: seq<string>)
    ensures forall k :: k in rest <==> k in keys && k != todayKey
  {
    if |keys| == 0 then []
    else
      var init, last := keys[..|keys| - 1], keys[|keys| - 1];
      assert forall k :: k in keys <==> k in init || k == last;
      WithoutKey(init, todayKey) + (if last != todayKey then [last] else [])
  }

  /** Lines 142-147: the daily keys other than today's, newest first, at most four. */
  function HistoryDates(daily: seq<Point>, todayKey: string): seq<string> {
    Take(SortDesc(WithoutKey(DailyKeys(daily), todayKey), KeyOf), 4)
  }

  /** The history dates are at most four daily keys, never today's, newest
      first, and they are the newest: a daily key left out is not newer than
      any date kept, and is left out only when four were kept. */
  lemma HistoryDatesAreNewestOthers(daily: seq<Point>, todayKey: string)
    ensures var dates := HistoryDates(daily, todayKey);
      && |dates| <= 4
      && todayKey !in dates
      && SortedDesc(dates, KeyOf)
      && (forall k :: k in dates ==> k in DailyKeys(daily))
      && (forall k :: k in DailyKeys(daily) && k != todayKey && k !in dates ==>
            |dates| == 4 && forall i :: 0 <= i < 4 ==> LexLe(k, dates[i]))
  {
    TakeNewest(WithoutKey(DailyKeys(daily), todayKey), KeyOf, 4);
  }

  /** Lines 123-125: today's entry, only when today has both a high and a low. */
  function TodayItem(todayKey: string, hl: HighLow): Option<DayItem> {
    if hl.high.Some? && hl.low.Some? then Some(DayItem(todayKey, hl.high, hl.low, true)) else None
  }

  /** Lines 149-154: an entry per history date with that day's high and low. */
  function HistoryItems(dates: seq<string>, dayReadings: string -> seq<Point>): (items: seq<DayItem>)
    ensures |items| == |dates|
    ensures forall i :: 0 <= i < |items| ==>
      var hl := TodayCardHighLow(dayReadings(dates[i]), Null);
      items[i] == DayItem(dates[i], hl.high, hl.low, false)
  {
    seq(|dates|, i requires 0 <= i < |dates| =>
      var hl := TodayCardHighLow(dayReadings(dates[i]), Null);
      DayItem(dates[i], hl.high, hl.low, false))
  }

  /** Line 156: `todayItem ? [todayItem, ...historyItems] : historyItems.slice(0, 5)` */
  function FinalList(today: Option<DayItem>, history: seq<DayItem>): seq<DayItem> {
    if today.Some? then [today.value] + history else Take(history, 5)
  }

  /** Lines 113-156, with the fetches as inputs: `daily` is the one-day rollup
      of the last days and `dayReadings` gives the four-hour readings of a day. */
  function LastFiveDays(daily: seq<Point>, todayKey: string, live: JsValue, dayReadings: string -> seq<Point>): seq<DayItem> {
    var todayHL := TodayCardHighLow(dayReadings(todayKey), live);
    var dates := HistoryDates(daily, todayKey);
    FinalList(TodayItem(todayKey, todayHL), HistoryItems(dates, dayReadings))
  }

  /** The card lists at most five days.  Today comes first exactly when its
      high and its low are both known, and never elsewhere; the other entries
      are the history dates in their order, each with its own high and low
      and without the live value. */
  lemma LastFiveDaysShape(daily: seq<Point>, todayKey: string, live: JsValue, dayReadings: string -> seq<Point>)
    ensures var items := LastFiveDays(daily, todayKey, live, dayReadings);
      var todayHL := TodayCardHighLow(dayReadings(todayKey), live);
      var dates := HistoryDates(daily, todayKey);
      var hasToday := todayHL.high.Some? && todayHL.low.Some?;
      var rest := if hasToday then items[1..] else items;
      && |items| <= 5
      && (|items| > 0 && items[0].isToday <==> hasToday)
      && (hasToday ==> items[0] == DayItem(todayKey, todayHL.high, todayHL.low, true))
      && |rest| == |dates|
      && forall i :: 0 <= i < |rest| ==>
           && rest[i].date == dates[i]
           && rest[i].date != todayKey
           && !rest[i].isToday
           && rest[i].high == TodayCardHighLow(dayReadings(dates[i]), Null).high
           && rest[i].low == TodayCardHighLow(dayReadings(dates[i]), Null).low
  {
    HistoryDatesAreNewestOthers(daily, todayKey);
  }

  /** The live value the card is given (lines 114-116) reaches today's high
      and low exactly when the sensor is listed with a usable value: then
      both are numbers and that value lies between them (lines 101-103).  A
      missing sensor or a null, undefined or NaN value leaves today's entry
      as the readings alone make it. */
  lemma LiveValueOnToday(sensors: seq<Sensor>, id: int, readings: seq<Point>)
    ensures var s := Find(sensors, id);
      var hl := TodayCardHighLow(readings, LiveValue(sensors, id));
      && (s.None? || !Usable(s.value.value) ==> hl == TodayCardHighLow(readings, Null))
      && (s.Some? && Usable(s.value.value) ==>
            && hl.high.Some? && hl.low.Some?
            && Le(hl.low.value, s.value.value.n) && Le(s.value.value.n, hl.high.value))
  {
    var s := Find(sensors, id);
    var live := LiveValue(sensors, id);
    if s.Some? && Usable(s.value.value) {
      assert live == s.value.value;
    } else {
      assert !Usable(live);
    }
  }

  /** The text of a number as JavaScript writes an integral one. */
  function NumText(n: Num): string {
    match n
    case Finite(r) => IntToString(r.Floor)
    case PosInf => "Infinity"
    case NegInf => "-Infinity"
    case NaN => "NaN"
  }

  /** The unit after the number: a span holding it, or nothing for no unit. */
  function UnitSpan(unitSuffix: string): string {
    if unitSuffix != "" then "<span class=\"unit\">" + unitSuffix + "</span>" else ""
  }

  /** `fmt(n)` (lines 173-179): "--" for a missing value, otherwise the
      rounded number, followed by the unit in a span when there is a unit. */
  function Fmt(n: Option<Num>, unitSuffix: string): string {
    if n.None? then "--" else NumText(Round(n.value)) + UnitSpan(unitSuffix)
  }

  /** For every unit the page passes (lines 786-789: "°C", "%", " µg/m³",
      " dB") and for none, `fmt` writes a finite number as the integer
      nearest to it, halves rounded up, followed by the unit's span; a
      missing value is written "--" whatever the unit, and reads as no
      number. */
  lemma FmtShowsNearestInteger(x: real, unitSuffix: string)
    ensures var text := Fmt(Some(Finite(x)), unitSuffix);
      var span := UnitSpan(unitSuffix);
      && |span| <= |text|
      && text[|text| - |span|..] == span
      && ParseInt(text[..|text| - |span|]).Some?
      && var k := ParseInt(text[..|text| - |span|]).value;
         k as real - 0.5 <= x < k as real + 0.5
    ensures Fmt(None, unitSuffix) == "--" && ParseInt("--").None?
  {
    var n := Round(Finite(x));
    var k := n.r.Floor;
    assert n.r == k as real;
    var num := IntToString(k);
    assert NumText(n) == num;
    IntToStringRoundTrip(k);
    NumberBeforeSpan(num, UnitSpan(unitSuffix), k);
    assert Fmt(Some(Finite(x)), unitSuffix) == num + UnitSpan(unitSuffix);
    assert DigitValue('-') < 0;
  }

  /** A number's text followed by a span still reads back as the number
      once the span is cut off. */
  lemma NumberBeforeSpan(num: string, span: string, k: int)
    requires ParseInt(num) == Some(k)
    ensures var t := num + span;
      && |span| <= |t| && t[|t| - |span|..] == span
      && ParseInt(t[..|t| - |span|]) == Some(k)
  {
    var t := num + span;
    assert t[..|t| - |span|] == num;
  }
}
