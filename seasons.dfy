/** The history cards' seasonal tag: a day's mid temperature compared with
    the normal band of its season on Limnos (`seasonFromMonth`,
    `LIMNOS_BANDS`, `getTempSeasonTagFromHL`). */
module Seasons {
  import opened JsValues

  datatype Season = Winter | Spring | Summer | Autumn

  /** `seasonFromMonth(m)` for a `getMonth()` result; any other integer is
      autumn.  The source also sends an invalid date's NaN month to autumn;
      the model's month is an integer and does not represent NaN. */
  function SeasonFromMonth(m: int): (s: Season)
    ensures s == Winter <==> m == 11 || m == 0 || m == 1
    ensures s == Spring <==> 2 <= m <= 4
    ensures s == Summer <==> 5 <= m <= 7
    ensures s == Autumn <==> !(m == 11 || 0 <= m <= 7)
  {
    if m in [11, 0, 1] then Winter
    else if m in [2, 3, 4] then Spring
    else if m in [5, 6, 7] then Summer
    else Autumn
  }

  /** A season's normal band `{low, high}`, in whole degrees Celsius. */
  datatype Band = Band(low: int, high: int)

  /** `LIMNOS_BANDS` */
  function LimnosBand(s: Season): (b: Band)
    ensures s == Winter ==> b.low == 6 && b.high == 14
    ensures s == Spring ==> b.low == 11 && b.high == 22
    ensures s == Summer ==> b.low == 22 && b.high == 31
    ensures s == Autumn ==> b.low == 13 && b.high == 24
    ensures b.low < b.high
  {
    match s
    case Winter => Band(6, 14)
    case Spring => Band(11, 22)
    case Summer => Band(22, 31)
    case Autumn => Band(13, 24)
  }

  /** `{tagClass, tagText}` */
  datatype Tag = Tag(tagClass: string, tagText: string)

  const LowTag := Tag("tag-blue", "ΧΑΜΗΛΕΣ ΘΕΡΜΟΚΡΑΣΙΕΣ ΓΙΑ ΤΗΝ ΕΠΟΧΗ")
  const HighTag := Tag("tag-orange", "ΥΨΗΛΕΣ ΘΕΡΜΟΚΡΑΣΙΕΣ ΓΙΑ ΤΗΝ ΕΠΟΧΗ")
  const NormalTag := Tag("tag-green", "ΚΑΝΟΝΙΚΕΣ ΘΕΡΜΟΚΡΑΣΙΕΣ ΓΙΑ ΤΗΝ ΕΠΟΧΗ")

  /** `getTempSeasonTagFromHL(high, low, dateKey)`, with the month of the date
      key as `month`: both values go through `Number()`, a non-finite one
      gives the normal tag, otherwise `(high + low) / 2` is compared with the
      season's band. */
  function SeasonTag(high: JsValue, low: JsValue, month: int): Tag {
    var band := LimnosBand(SeasonFromMonth(month));
    var hi := ToNumber(high);
    var lo := ToNumber(low);
    if !IsFinite(hi) || !IsFinite(lo) then NormalTag
    else
      var mid := (hi.r + lo.r) / 2.0;
      if mid < band.low as real then LowTag
      else if mid > band.high as real then HighTag
      else NormalTag
  }

  /** The tag is exactly one of the three: blue exactly when the mid
      temperature is below the season's band, orange exactly when above it,
      green otherwise, and green whenever the high or the low is not a finite
      number. */
  lemma SeasonTagMeaning(high: JsValue, low: JsValue, month: int)
    ensures var tag := SeasonTag(high, low, month);
      var band := LimnosBand(SeasonFromMonth(month));
      var hi := ToNumber(high);
      var lo := ToNumber(low);
      var finite := IsFinite(hi) && IsFinite(lo);
      && tag in {LowTag, HighTag, NormalTag}
      && (tag == LowTag <==> finite && (hi.r + lo.r) / 2.0 < band.low as real)
      && (tag == HighTag <==> finite && (hi.r + lo.r) / 2.0 > band.high as real)
      && (tag == NormalTag <==> !finite || band.low as real <= (hi.r + lo.r) / 2.0 <= band.high as real)
  {
    assert LowTag != HighTag && LowTag != NormalTag && HighTag != NormalTag;
  }

  /** A day whose high and low are both inside the season's band is tagged
      normal; one whose high is below the band is tagged low, one whose low is
      above it is tagged high. */
  lemma SeasonTagOfBandedDays(high: real, low: real, month: int)
    requires low <= high
    ensures var band := LimnosBand(SeasonFromMonth(month));
      var tag := SeasonTag(Val(Finite(high)), Val(Finite(low)), month);
      && (band.low as real <= low && high <= band.high as real ==> tag == NormalTag)
      && (high < band.low as real ==> tag == LowTag)
      && (low > band.high as real ==> tag == HighTag)
  {
    SeasonTagMeaning(Val(Finite(high)), Val(Finite(low)), month);
  }
}
