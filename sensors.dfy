/** The live snapshot: selecting the four tracked sensors of a device
    (`getSensorData`) and looking a sensor up by id (`Array.prototype.find`). */
module Sensors {
  import opened JsValues

  /** `SENSOR_MAPPING`, in its declaration order. */
  const TempId: int := 55
  const HumidityId: int := 56
  const Pm25Id: int := 194
  const NoiseId: int := 53
  const TrackedIds: seq<int> := [TempId, HumidityId, Pm25Id, NoiseId]

  /** A sensor as the device endpoint lists it. */
  datatype RawSensor = RawSensor(id: int, name: string, value: JsValue, unit: Option<string>, lastReadingAt: Option<string>)

  /** A sensor as `getSensorData` returns it. */
  datatype Sensor = Sensor(id: int, name: string, value: JsValue, unit: Option<string>, timestamp: Option<string>)

  /** The device's `location` object. */
  datatype Location = Location(city: Option<string>, country: Option<string>, latitude: JsValue, longitude: JsValue)

  /** The device JSON; `sensors` is None when `data` or `data.sensors` is missing. */
  datatype Device = Device(id: int, name: string, sensors: Option<seq<RawSensor>>, location: Option<Location>)

  /** What `fetch(API_URL + deviceId)` and `response.json()` produce. */
  datatype DeviceResponse = HttpError(status: int) | NetworkError | MalformedJson | Body(device: Device)

  datatype LocationInfo = LocationInfo(name: string, city: string, country: string, id: int, latitude: JsValue, longitude: JsValue)

  /** `{sensors, info}` */
  datatype LiveData = LiveData(sensors: seq<Sensor>, info: Option<LocationInfo>)

  /** `{id, name, value: sensor.value ?? null, unit, timestamp: sensor.last_reading_at}` */
  function Normalize(raw: RawSensor): Sensor {
    Sensor(raw.id, raw.name, if raw.value == Undefined then Null else raw.value, raw.unit, raw.lastReadingAt)
  }

  /** `sensors.filter(s => targetIds.includes(s.id)).map(Normalize)` */
  function Select(raws: seq<RawSensor>): seq<Sensor> {
    if |raws| == 0 then []
    else
      var init, last := raws[..|raws| - 1], raws[|raws| - 1];
      Select(init) + (if last.id in TrackedIds then [Normalize(last)] else [])
  }

  /** Only tracked sensors are selected, each as its normalised copy with a
      value that is not undefined, and every tracked sensor is selected. */
  lemma {:induction false} SelectMeaning(raws: seq<RawSensor>)
    ensures |Select(raws)| <= |raws|
    ensures forall i :: 0 <= i < |Select(raws)| ==> Select(raws)[i].id in TrackedIds && Select(raws)[i].value != Undefined
    ensures forall j :: 0 <= j < |raws| && raws[j].id in TrackedIds ==> Normalize(raws[j]) in Select(raws)
    ensures forall s :: s in Select(raws) ==> exists j :: 0 <= j < |raws| && raws[j].id in TrackedIds && s == Normalize(raws[j])
    decreases |raws|
  {
    if |raws| > 0 {
      var init, last := raws[..|raws| - 1], raws[|raws| - 1];
      SelectMeaning(init);
      assert forall j :: 0 <= j < |init| ==> init[j] == raws[j];
      var tail := if last.id in TrackedIds then [Normalize(last)] else [];
      assert Select(raws) == Select(init) + tail;
      forall s | s in Select(raws)
        ensures exists j :: 0 <= j < |raws| && raws[j].id in TrackedIds && s == Normalize(raws[j])
      {
        if s !in Select(init) {
          assert s in tail;
          assert raws[|raws| - 1].id in TrackedIds && s == Normalize(raws[|raws| - 1]);
        }
      }
    }
  }

  /** Selection keeps the device's order: it distributes over concatenation. */
  lemma {:induction false} SelectKeepsOrder(a: seq<RawSensor>, b: seq<RawSensor>)
    ensures Select(a + b) == Select(a) + Select(b)
    decreases |b|
  {
    if |b| == 0 {
      assert a + b == a;
    } else {
      var init, last := b[..|b| - 1], b[|b| - 1];
      var tail := if last.id in TrackedIds then [Normalize(last)] else [];
      SelectKeepsOrder(a, init);
      var ab := a + b;
      assert ab[..|ab| - 1] == a + init && ab[|ab| - 1] == last;
      assert Select(ab) == Select(a + init) + tail;
      assert Select(b) == Select(init) + tail;
    }
  }

  /** `device.location?.city || "Unknown City"` */
  function CityOf(loc: Option<Location>): (city: string)
    ensures city != ""
    ensures loc.Some? && loc.value.city.Some? && loc.value.city.value != "" ==> city == loc.value.city.value
    ensures !(loc.Some? && loc.value.city.Some? && loc.value.city.value != "") ==> city == "Unknown City"
  {
    if loc.Some? && loc.value.city.Some? && loc.value.city.value != "" then loc.value.city.value else "Unknown City"
  }

  /** `device.location?.country || "Greece"` */
  function CountryOf(loc: Option<Location>): (country: string)
    ensures country != ""
    ensures loc.Some? && loc.value.country.Some? && loc.value.country.value != "" ==> country == loc.value.country.value
    ensures !(loc.Some? && loc.value.country.Some? && loc.value.country.value != "") ==> country == "Greece"
  {
    if loc.Some? && loc.value.country.Some? && loc.value.country.value != "" then loc.value.country.value else "Greece"
  }

  /** `getSensorData(deviceId)` given what the fetch produced: the tracked
      sensors and the location, or `{sensors: [], info: null}` on any failure. */
  function GetSensorData(response: DeviceResponse): (live: LiveData)
    ensures live.info.Some? <==> response.Body? && response.device.sensors.Some?
    ensures live.info.None? ==> live.sensors == []
    ensures live.info.Some? ==> live.sensors == Select(response.device.sensors.value)
    ensures live.info.Some? ==>
      && live.info.value.name == response.device.name
      && live.info.value.id == response.device.id
      && live.info.value.city == CityOf(response.device.location)
      && live.info.value.country == CountryOf(response.device.location)
      && live.info.value.latitude == (if response.device.location.Some? then response.device.location.value.latitude else Undefined)
      && live.info.value.longitude == (if response.device.location.Some? then response.device.location.value.longitude else Undefined)
  {
    match response
    case Body(device) =>
      if device.sensors.None? then LiveData([], None)
      else
        var loc := device.location;
        var info := LocationInfo(
          device.name, CityOf(loc), CountryOf(loc), device.id,
          if loc.Some? then loc.value.latitude else Undefined,
          if loc.Some? then loc.value.longitude else Undefined);
        LiveData(Select(device.sensors.value), Some(info))
    case _ => LiveData([], None)
  }

  /** `sensors.find(s => s.id === id)`: the first sensor with that id. */
  function Find(sensors: seq<Sensor>, id: int): (found: Option<Sensor>)
    ensures found.None? <==> forall i :: 0 <= i < |sensors| ==> sensors[i].id != id
    ensures found.Some? ==> exists i :: 0 <= i < |sensors| && sensors[i] == found.value && found.value.id == id
                                       && forall j :: 0 <= j < i ==> sensors[j].id != id
  {
    if |sensors| == 0 then None
    else if sensors[0].id == id then Some(sensors[0])
    else
      var rest := Find(sensors[1..], id);
      assert forall i :: 1 <= i < |sensors| ==> sensors[i] == sensors[1..][i - 1];
      rest
  }

  /** The today card's live value (lines 115-116):
      `(liveSensor && liveSensor.value !== null) ? Number(liveSensor.value) : null`. */
  function LiveValue(sensors: seq<Sensor>, id: int): (v: JsValue)
    ensures v == Null <==> Find(sensors, id).None? || Find(sensors, id).value.value == Null
    ensures v != Null ==> v == Val(ToNumber(Find(sensors, id).value.value))
  {
    var s := Find(sensors, id);
    if s.Some? && s.value.value != Null then Val(ToNumber(s.value.value)) else Null
  }

  /** The hero widget's live value (line 750):
      `tempSensor ? parseFloat(tempSensor.value) : null`.  A temperature
      sensor whose value is null gives NaN, not null. */
  function LiveTempValue(sensors: seq<Sensor>): (v: JsValue)
    ensures v == Null <==> Find(sensors, TempId).None?
    ensures Find(sensors, TempId).Some? && Find(sensors, TempId).value.value.Val? ==> v == Find(sensors, TempId).value.value
    ensures Find(sensors, TempId).Some? && !Find(sensors, TempId).value.value.Val? ==> v == Val(NaN)
  {
    var s := Find(sensors, TempId);
    if s.Some? then Val(ParseFloat(s.value.value)) else Null
  }
}
