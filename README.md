# Web2Learn dashboard core, modelled in Dafny

Web2Learn is a browser dashboard for a Smart Citizen environmental sensor on
Limnos. It shows temperature, humidity, PM2.5 and noise. This project models
the logic in `Web2Learn/Web2Learn.js` that runs between the network fetches
and the DOM writes:

- selecting the tracked sensors of a device (`getSensorData`);
- reducing a day's readings to a high and a low:
  - the today card's `getDayHighLow(dateKey, liveValue)`,
  - the history section's `getDayHighLow(deviceId, dateKey)`,
  - the hero widget's `updateHighLow`;
- choosing the days of the last-five-days list and formatting its numbers (`fmt`);
- merging the four one-day rollups into one record per day (`daysMap`, `processData`, `sortedDays`);
- the seasonal tag of a history card (`seasonFromMonth`, `LIMNOS_BANDS`, `getTempSeasonTagFromHL`);
- the sunrise/sunset cache (`sunCache`, `getSunTimes`);
- the threshold tables:
  - the highlight cards' colours,
  - the today panel's quality labels,
  - the weather icons,
  - `prettyUnit`,
  - the temperature bar's knob position.

How JavaScript values are modelled:

- **Values.** A value is `null`, `undefined`, or a number. A number is finite (a `real`), an infinity, or NaN.
- **Comparisons.** Every comparison with NaN is false, as in JavaScript. So NaN falls through each first-match table to its last entry.
- **`Math.max` and `Math.min`.** They are folds that propagate NaN. The empty fold gives -Infinity and +Infinity respectively.
- **`Math.round(x)`.** It is `floor(x + 0.5)`.

How the rest of the page's state is modelled:

- **Fetches.** What a fetch produced is an input: a sequence of readings, a device response, or a function from request to answer for the sunrise-sunset service.
- **`daysMap`.** A class whose methods update a `map` field and the insertion order of its keys in place.
- **`sunCache`.** A class with a `map` field and a method that checks the map and then updates it.

Module by module:

- `js_values.dfy`: the value model, `Number()`, `parseFloat`, `Math.max`/`min`/`round`, and integer text.
- `date_keys.dfy`: date keys, their order, the descending sort and `slice`.
- `readings.dfy`: the three high/low computations.
- `sensors.dfy`: sensor selection and lookup by id.
- `today_card.dfy`: the last-five-days list.
- `classifiers.dfy`: the colour and quality tables.
- `widgets.dfy`: what the widgets derive from the live sensors.
- `seasons.dfy`: the seasonal tag.
- `history.dfy`: the day table.
- `sun_cache.dfy`: the sunrise/sunset cache.
- `dashboard.dfy`: the live temperature fed to the hero widget.

## Model

| member | source | states |
|---|---|---|
| JsValues.JsMaxIsGreatest | Web2Learn/Web2Learn.js:107-110 | `Math.max(...values)` is NaN exactly when some value is NaN; otherwise it bounds every value from above and, for a non-empty list, is one of them |
| JsValues.JsMinIsLeast | Web2Learn/Web2Learn.js:107-110 | `Math.min(...values)` is NaN exactly when some value is NaN; otherwise it bounds every value from below and, for a non-empty list, is one of them |
| JsValues.Round | Web2Learn/Web2Learn.js:175 | `Math.round` gives a whole number within half of its argument, halves going up; infinities and NaN are unchanged |
| JsValues.IntToStringRoundTrip | Web2Learn/Web2Learn.js:176-178 | the decimal text of an integer reads back as that integer |
| DateKeys.DateKey | Web2Learn/Web2Learn.js:383 | `ts.split("T")[0]` is the longest prefix of the timestamp without a `T` |
| DateKeys.LexLeTotal | Web2Learn/Web2Learn.js:146 | any two date keys are comparable under `localeCompare` taken as code-unit order |
| DateKeys.LexLeTransitive | Web2Learn/Web2Learn.js:146 | the key order is transitive |
| DateKeys.LexLeAntisymmetric | Web2Learn/Web2Learn.js:146 | two keys ordered both ways are equal |
| DateKeys.SortDescPermutes | Web2Learn/Web2Learn.js:146 | the descending sort keeps every element as often as it occurs |
| DateKeys.SortDescSorted | Web2Learn/Web2Learn.js:146 | the descending sort puts newer keys first |
| DateKeys.Take | Web2Learn/Web2Learn.js:147 | `slice(0, n)` is the prefix of length `min(n, length)` |
| DateKeys.TakeNewest | Web2Learn/Web2Learn.js:146-147 | the first `n` of the sorted list are sorted, come from the list, and are the newest: anything left out is no newer than any of them, and is left out only when `n` were kept |
| Readings.Extrema | Web2Learn/Web2Learn.js:105-110 | no values give null for both; otherwise, without NaN, low and high are members, `low <= high`, and they bound every value; any NaN makes both NaN |
| Readings.UsableValues | Web2Learn/Web2Learn.js:95-98 | the kept values are exactly the readings that are not null, undefined or NaN |
| Readings.TodayCardHighLow | Web2Learn/Web2Learn.js:95-110 | both null exactly when neither a reading nor the live value is usable; otherwise high and low are usable readings or the live value, `low <= high`, and they bound every usable reading and the usable live value |
| Readings.DayHighLowWithLive | Web2Learn/Web2Learn.js:95-110 | the filter, the conditional push of the live value and the reduction give the high and low stated by `TodayCardHighLow` |
| Readings.NullReadingCountsAsZero | Web2Learn/Web2Learn.js:352-354 | as written, a day with a null reading and a reading of 20 gets a low of 0 |
| Readings.FiniteValues | Web2Learn/Web2Learn.js:352-354 | the corrected filter keeps exactly the readings that are finite numbers |
| Readings.DayHighLow | Web2Learn/Web2Learn.js:352-357 | corrected history helper: both null exactly when no reading is finite; otherwise both finite, both readings of the day, `low <= high`, and they bound every finite reading |
| Readings.HelpersAgreeWithoutInfinities | Web2Learn/Web2Learn.js:352-357 | when no reading is infinite, the corrected history helper agrees with the today-card helper without a live value |
| Readings.LiveNaNPoisonsHighLow | Web2Learn/Web2Learn.js:223-230 | as written, the NaN that a null live temperature becomes is pushed on the current day and both the high and the low become NaN |
| Readings.UpdateHighLow | Web2Learn/Web2Learn.js:223-239 | corrected hero widget: the today-card reduction of the readings, with the live value only when the reference day is today |
| Sensors.SelectMeaning | Web2Learn/Web2Learn.js:21-29 | only tracked ids are kept, every tracked sensor of the device is kept, each as its normalised copy, and no value is undefined |
| Sensors.SelectKeepsOrder | Web2Learn/Web2Learn.js:21-22 | selection distributes over concatenation, so it keeps the device's order |
| Sensors.CityOf | Web2Learn/Web2Learn.js:33 | the location's city when it is present and non-empty, otherwise exactly "Unknown City" |
| Sensors.CountryOf | Web2Learn/Web2Learn.js:34 | the location's country when it is present and non-empty, otherwise exactly "Greece" |
| Sensors.GetSensorData | Web2Learn/Web2Learn.js:13-46 | any failure gives no sensors and no info; otherwise the selected sensors and the device's name, id, city and country (with their fallbacks) and coordinates |
| Sensors.Find | Web2Learn/Web2Learn.js:561 | `find` gives the first sensor with the id, or nothing exactly when no sensor has it |
| Sensors.LiveTempValue | Web2Learn/Web2Learn.js:748-750 | the hero widget's live value is null exactly when there is no temperature sensor; a sensor's number reaches the widget as itself, and a null or undefined sensor value gives NaN |
| TodayCard.DailyKeys | Web2Learn/Web2Learn.js:142-144 | the extracted keys are exactly the date keys of the points that have a timestamp |
| TodayCard.WithoutKey | Web2Learn/Web2Learn.js:145 | the filtered keys are exactly the keys other than today's |
| TodayCard.HistoryDatesAreNewestOthers | Web2Learn/Web2Learn.js:142-147 | at most four dates, never today's, newest first, all daily keys, and the newest ones: a daily key left out is no newer than any kept |
| TodayCard.HistoryItems | Web2Learn/Web2Learn.js:149-154 | one entry per history date, in order, with that day's high and low without the live value |
| TodayCard.LiveValueOnToday | Web2Learn/Web2Learn.js:95-116 | the live value reaches today's high and low exactly when the sensor is listed with a usable value, which then lies between them; otherwise today's entry is what the readings alone give |
| TodayCard.LastFiveDaysShape | Web2Learn/Web2Learn.js:113-156 | at most five entries; today first exactly when its high and low are both known, and nowhere else; the rest are the history dates in order |
| TodayCard.FmtShowsNearestInteger | Web2Learn/Web2Learn.js:173-179 | for any unit, including each one the page passes at lines 786-789, a finite number is written as the nearest integer, halves up, followed by the unit's span; a missing value is written "--" |
| Classifiers.TempCardIntervals | Web2Learn/Web2Learn.js:592-598 | the temperature colours are the intervals split at 10, 18, 26 and 32, with NaN hot |
| Classifiers.Pm25CardIntervals | Web2Learn/Web2Learn.js:608-614 | the PM2.5 colours are the intervals split at 5, 15, 25 and 50, with NaN red |
| Classifiers.NoiseCardIntervals | Web2Learn/Web2Learn.js:616-622 | the noise colours are the intervals split at 40 (open), 55, 65 and 75, with NaN red |
| Classifiers.HumidityCardByDistance | Web2Learn/Web2Learn.js:600-606 | the humidity colour is a band per 10 points of distance from 50%, and a non-finite humidity is red |
| Classifiers.TempCardMonotone | Web2Learn/Web2Learn.js:592-598 | a higher temperature never gets a colder colour |
| Classifiers.Pm25CardMonotone | Web2Learn/Web2Learn.js:608-614 | a higher PM2.5 concentration never gets a better colour |
| Classifiers.NoiseCardMonotone | Web2Learn/Web2Learn.js:616-622 | a louder reading never gets a better colour |
| Classifiers.HumidityCardMonotoneInDistance | Web2Learn/Web2Learn.js:600-606 | a humidity further from 50% never gets a better colour |
| Classifiers.QualityIntervals | Web2Learn/Web2Learn.js:633-669 | each quality table splits the number line into its three labelled intervals, with NaN taking the last label |
| Classifiers.LabelsAgreeWithCards | Web2Learn/Web2Learn.js:591-669 | the card and the label agree on cold temperatures and on quiet noise; a good PM2.5 label sits on a green or light-green card |
| Widgets.CardTypeOf | Web2Learn/Web2Learn.js:553-558 | the card types "temp", "humidity", "pm25" and "noise-level" each name their own card type, and any other `data-type` names none |
| Widgets.SensorOf | Web2Learn/Web2Learn.js:554-557 | the temperature, humidity, PM2.5 and noise cards read sensors 55, 56, 194 and 53 |
| Widgets.ColourClassIntervals | Web2Learn/Web2Learn.js:591-623 | for each card type, the class it adds is named for exactly its interval: temperature cold up to 10, cool (10, 18], comfortable (18, 26], warm (26, 32], hot above 32 or NaN; humidity green [40, 60] and light-green, yellow, orange on the two-sided bands out to 10 and 90, red beyond or NaN; PM2.5 green up to 5, then 15, 25, 50, red above or NaN; noise green below 40, then 55, 65, 75, red above or NaN |
| Widgets.HighlightLeavesOneColour | Web2Learn/Web2Learn.js:544-625 | a coloured card ends with exactly one colour class, its value's band, and its other classes untouched; an unknown type or a missing or null sensor leaves the card unchanged |
| Widgets.ColourExamples | Web2Learn/Web2Learn.js:591-623 | boundary values: 10 °C cold, humidity 60 green and 65 light green, 5 µg/m³ green, 40 dB light green |
| Widgets.TierClass | Web2Learn/Web2Learn.js:689-690 | good for the blue and good tiers, moderate for the moderate tier, bad for the bad tier; never the blue class |
| Widgets.MetricSensor | Web2Learn/Web2Learn.js:633-671 | the metric keys "temperature", "aqi", "pm25" and "noise-level" read sensors 55, 56, 194 and 53, and any other key reads none |
| Widgets.MetricQuality | Web2Learn/Web2Learn.js:633-671 | "temperature" is read against the temperature table, "aqi" against the humidity table, "pm25" against the PM2.5 table and "noise-level" against the noise table |
| Widgets.QualityLabelHasOneClass | Web2Learn/Web2Learn.js:628-692 | the label is updated exactly when the metric is known and its sensor listed; it then shows its table's text for the sensor's value, and ends with exactly the class of its tier, never blue, other classes untouched; "Cold" is shown as good |
| Widgets.MetricLabelText | Web2Learn/Web2Learn.js:633-686 | the label text of each key as an interval of its sensor's value: temperature Cold up to 10, Normal below 25, Hot otherwise; aqi Dry below 30, Ideal up to 60, Humid otherwise; pm25 Good up to 12, Moderate up to 35.4, Unhealthy otherwise; noise Quiet below 40, Normal up to 70, Loud otherwise |
| Widgets.QualityLabelClasses | Web2Learn/Web2Learn.js:633-690 | the class each label text is shown with: Cold and Normal temperatures good, Hot bad; Dry moderate, Ideal good, Humid bad; Good, Moderate, Unhealthy PM2.5 and Quiet, Normal, Loud noise good, moderate, bad |
| Widgets.ConditionIcon | Web2Learn/Web2Learn.js:514-533 | no icon change without a humidity value; otherwise rain from 75, cloud from 50, sunny below 50 and for NaN |
| Widgets.IconRulesAgreeOffThresholds | Web2Learn/Web2Learn.js:436-439 | the history icon and the condition icon agree on a finite humidity exactly when it is neither 50 nor 75 |
| Widgets.PrettyUnit | Web2Learn/Web2Learn.js:536-540 | empty exactly for a missing or empty unit; otherwise a space and the unit, except that "ug/m3" is written exactly " µg/m³" |
| Widgets.TempBarPercent | Web2Learn/Web2Learn.js:476-499 | no knob move for NaN; otherwise a position within 0..100, linear on -5..45 °C and clamped outside it |
| Widgets.TempBarMonotoneAndInvertible | Web2Learn/Web2Learn.js:490-493 | the knob position is monotone in the temperature, and inside the bar it determines the temperature |
| Seasons.SeasonFromMonth | Web2Learn/Web2Learn.js:248-253 | December to February is winter, March to May spring, June to August summer, anything else autumn |
| Seasons.LimnosBand | Web2Learn/Web2Learn.js:255-260 | the seasonal bands are winter 6-14, spring 11-22, summer 22-31 and autumn 13-24, each with its low below its high |
| Seasons.SeasonTagMeaning | Web2Learn/Web2Learn.js:262-285 | blue exactly when the mid temperature is below the band, orange exactly when above, green otherwise and whenever the high or the low is not finite |
| Seasons.SeasonTagOfBandedDays | Web2Learn/Web2Learn.js:262-285 | a day inside its band is green, one entirely below it blue, one entirely above it orange |
| History.Set | Web2Learn/Web2Learn.js:385 | writing one property of a day changes that property and nothing else |
| History.PointKeys | Web2Learn/Web2Learn.js:382-383 | the days of a rollup are exactly the date keys of its points that have a timestamp |
| History.LastValue | Web2Learn/Web2Learn.js:385 | the value kept for a day is that of its last point, or undefined when there is none |
| History.ProcessShape | Web2Learn/Web2Learn.js:380-387 | `processData` keeps the table well formed; the keys become the old keys plus the rollup's days; old keys keep their places |
| History.ProcessValue | Web2Learn/Web2Learn.js:380-387 | the written property of each of the rollup's days is the value of its last point; days without points are unchanged |
| History.ProcessOthers | Web2Learn/Web2Learn.js:384-385 | an existing day differs from its old record at most in the written property, a new day differs from `{date}` at most there |
| History.ProcessMeaning | Web2Learn/Web2Learn.js:380-387 | the whole effect of one `processData` call on the table |
| History.WriteRollup | Web2Learn/Web2Learn.js:389-392 | processing one more rollup into the merge of the others gives the merge with it |
| History.BuildTableMerges | Web2Learn/Web2Learn.js:389-392 | after the four calls each day holds, per sensor, the value of its last point in that rollup |
| History.ValuesOf | Web2Learn/Web2Learn.js:394 | `Object.values` lists exactly the records of the table |
| History.WithTemp | Web2Learn/Web2Learn.js:395 | the filter keeps exactly the records whose temperature is neither undefined nor null |
| History.SortedDaysMeaning | Web2Learn/Web2Learn.js:394-396 | `sortedDays` is strictly newest first and holds exactly the table's days that have a temperature |
| History.HistoryDaysMeaning | Web2Learn/Web2Learn.js:379-396 | one card per day whose last temperature point has a value, strictly newest first, each with every sensor's last value of that day |
| History.DaysMap.constructor | Web2Learn/Web2Learn.js:379 | the table starts empty |
| History.DaysMap.ProcessData | Web2Learn/Web2Learn.js:380-387 | the loop leaves the table as `Process` states, and keeps it well formed |
| History.BuildHistory | Web2Learn/Web2Learn.js:379-396 | the four calls on a fresh table and the sort give `HistoryDays` |
| History.HistoryTagOfDay | Web2Learn/Web2Learn.js:419-424 | Corrected: with the helper that drops null readings, a day with no finite reading, or with all its finite readings inside its season's band, is tagged normal |
| History.NullDayTaggedColdAsWritten | Web2Learn/Web2Learn.js:352-354 | as written, a day whose only reading is null gets high and low 0 and is tagged cold in every season; corrected, it is tagged normal |
| History.NullBesideSummerReadingAsWritten | Web2Learn/Web2Learn.js:352-354 | as written, a July day with readings null and 25 gets low 0 and the cold tag; corrected, it gets 25 for both and the normal tag |
| SunCache.KeyFor | Web2Learn/Web2Learn.js:293-299 | no request for a null, undefined or non-finite coordinate; otherwise the key of the place and day |
| SunCache.Lookup | Web2Learn/Web2Learn.js:302-331 | an answer exactly when the service answers with both a sunrise and a sunset, and then both formatted |
| SunCache.SunTimesFor | Web2Learn/Web2Learn.js:292-333 | `getSunTimes` without a cache: nothing for an invalid place, otherwise the lookup of its key |
| SunCache.KeySeparatesDays | Web2Learn/Web2Learn.js:299 | requests for one place share a key exactly when they are for the same day |
| SunCache.SunTimesCache.constructor | Web2Learn/Web2Learn.js:290 | the cache starts empty, with no requests made |
| SunCache.SunTimesCache.GetSunTimes | Web2Learn/Web2Learn.js:292-333 | the uncached answer; an invalid place or a hit sends no request and changes nothing; a miss sends one and stores only a complete answer |
| SunCache.AskTwice | Web2Learn/Web2Learn.js:300-331 | asking twice gives the same answer; a complete answer is fetched once, a failure is asked for again |
| SunCache.SunTimesForDays | Web2Learn/Web2Learn.js:411-430 | each history card gets the uncached answer for its day, with at most one request per card |
| Dashboard.NullLiveTemperature | Web2Learn/Web2Learn.js:748-750 | a listed temperature sensor with a null value makes the hero widget as written show NaN; the corrected one ignores it |
| Dashboard.HeroHighLow | Web2Learn/Web2Learn.js:748-782 | the corrected hero widget fed as on line 750 uses the live temperature only on the current day |

## Findings

| source | as written | input that shows it | evidently intended | confidence | as-written member | corrected member |
|---|---|---|---|---|---|---|
| Web2Learn/Web2Learn.js:352-354 | `Number(r?.[1])` turns a null reading into 0, which passes the finiteness filter | a day with readings null and 20 gets high 20, low 0; in consequence an all-null day is tagged cold in every season, and a July day with null and 25 is tagged cold (History.NullDayTaggedColdAsWritten, History.NullBesideSummerReadingAsWritten) | a null reading is dropped like a missing one, as the today-card helper does at line 97 | not executed | Readings.NullReadingCountsAsZero | Readings.DayHighLow |
| Web2Learn/Web2Learn.js:228-229 | the live value is pushed when it is not null or undefined, but line 750 passes `parseFloat(value)`, NaN for a null value | a listed temperature sensor with value null on the current day: high and low are both NaN | a value that is not a number is dropped, as at line 101 | not executed | Readings.LiveNaNPoisonsHighLow | Readings.UpdateHighLow |

## Left out

- Fetches, JSON parsing, `Promise.all` and the async order of the calls. The readings, the device response and the sunrise-sunset answers are inputs. A failed readings fetch is the empty sequence.
- The DOM: element lookups, `innerHTML` and the HTML templates, event wiring, and the status label "Sensor Offline or No Data".
- `Date` handling. The inputs stand in for it:
  - today's key;
  - whether the hero widget's reference day is today;
  - the month of a date key;
  - `toLocaleTimeString` in Europe/Athens, a function given to the cache.
- The Greek month and weekday names on the cards are not modelled.
- Number formatting other than whole numbers: `toFixed(1)`, and the text of `Math.round` outside the integers `fmt` writes.
- The display rounding of humidity, PM2.5 and noise on the history cards (lines 432-434) and the live panel texts (lines 695-720) are not modelled.
- Numbers are reals, not IEEE doubles.
- A string value is represented by what `Number()` makes of it. So `parseFloat` of text with trailing characters, such as "12abc", is not modelled.
- `localeCompare` is code-unit order. On `YYYY-MM-DD` keys this is chronological order. A locale may collate other texts differently.
- `daysMap`: a date key that names an `Object.prototype` member, such as "constructor", is not modelled. Neither is the rule that `Object.values` lists integer-like keys first. The table keeps plain insertion order.
- `getSunTimes`' `timeZone` argument is not modelled. Every call uses the default, and it does not enter the cache key.
- `SunCache.SunTimesCache.GetSunTimes`: the cache key is the triple (latitude, longitude, date), not the text `${nLat},${nLon},${dateKey}`. The text of a finite number has no comma, so the two tell the same requests apart. The one exception is -0, which prints as "0" and has no counterpart among reals.
- `Readings.UpdateHighLow`: the source throws when the readings are not an array or a reading is null (lines 223-224). The model takes a sequence of points and does not model the exception.
- In `applyMetric`, the defaults "N/A" and "moderate" (lines 630-631) are never shown, because the label is written only when a sensor is found. The source also returns early when a panel element is missing; the model does not cover that.
- `Web2Learn/map.js` is not part of this model: it holds marker data and map-library calls.
