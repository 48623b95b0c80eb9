/** Sunrise and sunset times for a day card (`getSunTimes`, lines 290-333),
    remembered per place and day in `sunCache` so that the sunrise-sunset
    service is asked at most once for each. */
module SunCache {
  import opened JsValues

  /** `{sunrise, sunset}`, each already written as a local time of day. */
  datatype SunTimes = SunTimes(sunrise: string, sunset: string)

  /** What the service answers for one request: a failure (a status that is
      not ok, a network error, a body that is not JSON) or the `results`
      object's `sunrise` and `sunset`, either of which may be missing. */
  datatype SunResponse = SunFailure | SunResults(sunrise: Option<string>, sunset: Option<string>)

  /** The cache key `${nLat},${nLon},${dateKey}`.  The text of a finite
      number has no comma, so the text key and this triple tell the same
      requests apart. */
  datatype SunKey = SunKey(lat: real, lon: real, date: string)

  /** `!r?.sunrise`: a time that is missing or empty. */
  predicate Blank(s: Option<string>) {
    s.None? || s.value == ""
  }

  /** The place of a request, or None when line 293 or line 297 returns
      `null`: a coordinate that is `null` or `undefined`, or one whose
      `Number()` is not finite. */
  function KeyFor(lat: JsValue, lon: JsValue, dateKey: string): (key: Option<SunKey>)
    ensures key.Some? <==> lat.Val? && lon.Val? && IsFinite(lat.n) && IsFinite(lon.n)
    ensures key.Some? ==> key.value == SunKey(lat.n.r, lon.n.r, dateKey)
  {
    if lat == Null || lat == Undefined || lon == Null || lon == Undefined then None
    else
      var nLat := ToNumber(lat);
      var nLon := ToNumber(lon);
      if !IsFinite(nLat) || !IsFinite(nLon) then None
      else Some(SunKey(nLat.r, nLon.r, dateKey))
  }

  /** Lines 302-331 without the cache: the answer for one key, given what
      the service answers and how a UTC timestamp is written as a local
      time. */
  function Lookup(fetch: SunKey -> SunResponse, format: string -> string, key: SunKey): (sun: Option<SunTimes>)
    ensures sun.Some? <==> fetch(key).SunResults? && !Blank(fetch(key).sunrise) && !Blank(fetch(key).sunset)
    ensures sun.Some? ==> sun.value == SunTimes(format(fetch(key).sunrise.value), format(fetch(key).sunset.value))
  {
    match fetch(key)
    case SunFailure => None
    case SunResults(sunrise, sunset) =>
      if Blank(sunrise) || Blank(sunset) then None
      else Some(SunTimes(format(sunrise.value), format(sunset.value)))
  }

  /** `getSunTimes(lat, lon, dateKey)` as if nothing were cached. */
  function SunTimesFor(fetch: SunKey -> SunResponse, format: string -> string, lat: JsValue, lon: JsValue, dateKey: string): (sun: Option<SunTimes>)
    ensures KeyFor(lat, lon, dateKey).None? ==> sun.None?
    ensures KeyFor(lat, lon, dateKey).Some? ==> sun == Lookup(fetch, format, KeyFor(lat, lon, dateKey).value)
  {
    var key := KeyFor(lat, lon, dateKey);
    if key.None? then None else Lookup(fetch, format, key.value)
  }

  /** A place that can be asked about can be asked about on any day, and
      requests for the same place share a key exactly when they are for the
      same day. */
  lemma KeySeparatesDays(lat: JsValue, lon: JsValue, d1: string, d2: string)
    requires KeyFor(lat, lon, d1).Some?
    ensures KeyFor(lat, lon, d2).Some?
    ensures KeyFor(lat, lon, d1) == KeyFor(lat, lon, d2) <==> d1 == d2
  {
  }

  /** `sunCache`, with the service and the time formatting it sits in front
      of, and a record of the requests it let through. */
  class SunTimesCache {
    const fetch: SunKey -> SunResponse
    const format: string -> string
    var entries: map<SunKey, SunTimes>
    ghost var requests: seq<SunKey>

    /** Every cached answer is the answer the service gives, and only
        answers with both times are cached. */
    ghost predicate Valid()
      reads this
    {
      forall key :: key in entries ==> Lookup(fetch, format, key) == Some(entries[key])
    }

    /** `const sunCache = new Map()` */
    constructor (fetch: SunKey -> SunResponse, format: string -> string)
      ensures Valid()
      ensures this.fetch == fetch && this.format == format
      ensures entries == map[] && requests == []
    {
      this.fetch := fetch;
      this.format := format;
      entries := map[];
      requests := [];
    }

    /** `getSunTimes(lat, lon, dateKey)`: the same answer as an uncached
        lookup; a request goes out only for a valid place that is not
        cached, and only a complete answer is stored. */
    method GetSunTimes(lat: JsValue, lon: JsValue, dateKey: string) returns (sun: Option<SunTimes>)
      requires Valid()
      modifies this
      ensures Valid()
      ensures sun == SunTimesFor(fetch, format, lat, lon, dateKey)
      ensures var key := KeyFor(lat, lon, dateKey);
        if key.None? || key.value in old(entries) then
          entries == old(entries) && requests == old(requests)
        else
          && requests == old(requests) + [key.value]
          && entries == if sun.Some? then old(entries)[key.value := sun.value] else old(entries)
    {
      if lat == Null || lat == Undefined || lon == Null || lon == Undefined {
        return None;
      }
      var nLat := ToNumber(lat);
      var nLon := ToNumber(lon);
      if !IsFinite(nLat) || !IsFinite(nLon) {
        return None;
      }
      var cacheKey := SunKey(nLat.r, nLon.r, dateKey);
      if cacheKey in entries {
        return Some(entries[cacheKey]);
      }
      requests := requests + [cacheKey];
      var res := fetch(cacheKey);
      if res.SunFailure? {
        return None;
      }
      if Blank(res.sunrise) || Blank(res.sunset) {
        return None;
      }
      var out := SunTimes(format(res.sunrise.value), format(res.sunset.value));
      entries := entries[cacheKey := out];
      return Some(out);
    }
  }

  /** Asking twice for the same place and day gives the uncached answer both
      times; a complete answer is fetched at most once, while a failed or
      incomplete one is not remembered and is asked for again. */
  method AskTwice(cache: SunTimesCache, lat: JsValue, lon: JsValue, dateKey: string) returns (first: Option<SunTimes>, second: Option<SunTimes>)
    requires cache.Valid()
    modifies cache
    ensures first == second == SunTimesFor(cache.fetch, cache.format, lat, lon, dateKey)
    ensures first.Some? ==> |old(cache.requests)| <= |cache.requests| <= |old(cache.requests)| + 1
    ensures first.None? && KeyFor(lat, lon, dateKey).Some? ==>
      var key := KeyFor(lat, lon, dateKey).value;
      cache.requests == old(cache.requests) + [key, key]
    ensures KeyFor(lat, lon, dateKey).None? ==> cache.requests == old(cache.requests)
  {
    first := cache.GetSunTimes(lat, lon, dateKey);
    second := cache.GetSunTimes(lat, lon, dateKey);
  }

  /** The sun times of the day cards (lines 411 and 427): each card gets the
      uncached answer for its day, and no more requests go out than there
      are cards. */
  method SunTimesForDays(cache: SunTimesCache, lat: JsValue, lon: JsValue, dates: seq<string>) returns (suns: seq<Option<SunTimes>>)
    requires cache.Valid()
    modifies cache
    ensures cache.Valid()
    ensures |suns| == |dates|
    ensures forall i :: 0 <= i < |dates| ==> suns[i] == SunTimesFor(cache.fetch, cache.format, lat, lon, dates[i])
    ensures |old(cache.requests)| <= |cache.requests| <= |old(cache.requests)| + |dates|
  {
    suns := [];
    for i := 0 to |dates|
      invariant cache.Valid()
      invariant |suns| == i
      invariant forall j :: 0 <= j < i ==> suns[j] == SunTimesFor(cache.fetch, cache.format, lat, lon, dates[j])
      invariant |old(cache.requests)| <= |cache.requests| <= |old(cache.requests)| + i
    {
      var sun := cache.GetSunTimes(lat, lon, dates[i]);
      suns := suns + [sun];
    }
  }
}
