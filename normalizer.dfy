/**
 * What `MoistureClient._on_message` and `_store_sensor_data` make of one
 * MQTT message: the sensor id, the fields picked from the JSON object by
 * alias, the timestamp, and the float-coerced parameter tuple of the single
 * INSERT (or no INSERT at all). Every failure the source catches is a
 * `None` here, so no input makes these functions fail.
 */
module Normalizer {

  import opened Wrappers
  import opened Text
  import opened PyValues
  import opened Timestamps

  /** One delivered message. */
  datatype Message = Message(
    topic: string,
    text: Option<string>,     // msg.payload.decode('utf-8'); None when the bytes are not UTF-8
    document: Option<Json>)   // json.loads(text); None when it raises JSONDecodeError

  /**
   * The parameters of `INSERT INTO moisture_readings (sensor_id, timestamp,
   * moisture_level, temperature, humidity, battery_level, raw_data)`.
   */
  datatype Row = Row(
    sensorId: Json,
    timestamp: DateTime,
    moistureLevel: real,
    temperature: Option<real>,
    humidity: Option<real>,
    batteryLevel: Option<real>,
    rawData: string)

  // ---------------------------------------------------------------- sensor id

  /**
   * `topic.split('/')[1]` when the topic has two or more pieces, else
   * `data.get('sensor_id', 'unknown')`; `None` for the AttributeError of
   * calling `.get` on a payload that is not an object.
   */
  function SensorId(topic: string, data: Json): (r: Option<Json>)
    ensures |Split(topic, '/')| >= 2 ==> r == Some(JStr(Split(topic, '/')[1]))
    ensures |Split(topic, '/')| < 2 ==> (r.Some? <==> data.JObject?)
  {
    var parts := Split(topic, '/');
    if |parts| >= 2 then Some(JStr(parts[1]))
    else if data.JObject? then Some(Get(data.fields, "sensor_id", JStr("unknown")))
    else None
  }

  /** The id is the text between the first and the second slash. */
  lemma SensorIdBetweenSlashes(prefix: string, id: string, rest: string, data: Json)
    requires '/' !in prefix && '/' !in id
    ensures SensorId(prefix + "/" + id + "/" + rest, data) == Some(JStr(id))
  {
    var topic := prefix + "/" + id + "/" + rest;
    assert topic == prefix + ['/'] + (id + ['/'] + rest);
    SplitHead(prefix, '/', id + ['/'] + rest);
    SplitHead(id, '/', rest);
  }

  /** With a single slash, the id is everything after it. */
  lemma SensorIdAfterLastSlash(prefix: string, id: string, data: Json)
    requires '/' !in prefix && '/' !in id
    ensures SensorId(prefix + "/" + id, data) == Some(JStr(id))
  {
    assert prefix + "/" + id == prefix + ['/'] + id;
    SplitHead(prefix, '/', id);
    SplitWhole(id, '/');
  }

  /**
   * A topic without a slash defers to the payload: its `sensor_id` value
   * when the key is present (whatever the value), else "unknown".
   */
  lemma SensorIdWithoutSlash(topic: string, data: map<string, Json>)
    requires '/' !in topic
    ensures "sensor_id" in data ==> SensorId(topic, JObject(data)) == Some(data["sensor_id"])
    ensures "sensor_id" !in data ==> SensorId(topic, JObject(data)) == Some(JStr("unknown"))
  {
    SplitWhole(topic, '/');
  }

  lemma SensorIdExample(data: Json)
    ensures SensorId("moisture/sensor_01/data", data) == Some(JStr("sensor_01"))
  {
    assert "moisture/sensor_01/data" == "moisture" + "/" + "sensor_01" + "/" + "data";
    SensorIdBetweenSlashes("moisture", "sensor_01", "data", data);
  }

  // ---------------------------------------------------------------- aliases

  /** `data.get('moisture', data.get('moisture_level', 0.0))` */
  function MoistureField(d: map<string, Json>): Json {
    Get(d, "moisture", Get(d, "moisture_level", JNum(0.0)))
  }

  /** `data.get('temperature', data.get('temp', None))` */
  function TemperatureField(d: map<string, Json>): Json {
    Get(d, "temperature", Get(d, "temp", JNull))
  }

  /** `data.get('humidity', None)` */
  function HumidityField(d: map<string, Json>): Json {
    Get(d, "humidity", JNull)
  }

  /** `data.get('battery', data.get('battery_level', None))` */
  function BatteryField(d: map<string, Json>): Json {
    Get(d, "battery", Get(d, "battery_level", JNull))
  }

  /** `data.get('timestamp', data.get('time'))` */
  function TimestampField(d: map<string, Json>): Json {
    Get(d, "timestamp", Get(d, "time", JNull))
  }

  /**
   * First-present-key selection: the first alias that is a key decides the
   * field, even when its value is `null`; the defaults apply only when no
   * alias is a key.
   */
  lemma AliasesFirstPresent(d: map<string, Json>)
    ensures "moisture" in d ==> MoistureField(d) == d["moisture"]
    ensures "moisture" !in d && "moisture_level" in d ==> MoistureField(d) == d["moisture_level"]
    ensures "moisture" !in d && "moisture_level" !in d ==> MoistureField(d) == JNum(0.0)
    ensures "temperature" in d ==> TemperatureField(d) == d["temperature"]
    ensures "temperature" !in d && "temp" in d ==> TemperatureField(d) == d["temp"]
    ensures "temperature" !in d && "temp" !in d ==> TemperatureField(d) == JNull
    ensures "humidity" in d ==> HumidityField(d) == d["humidity"]
    ensures "humidity" !in d ==> HumidityField(d) == JNull
    ensures "battery" in d ==> BatteryField(d) == d["battery"]
    ensures "battery" !in d && "battery_level" in d ==> BatteryField(d) == d["battery_level"]
    ensures "battery" !in d && "battery_level" !in d ==> BatteryField(d) == JNull
    ensures "timestamp" in d ==> TimestampField(d) == d["timestamp"]
    ensures "timestamp" !in d && "time" in d ==> TimestampField(d) == d["time"]
    ensures "timestamp" !in d && "time" !in d ==> TimestampField(d) == JNull
  {
  }

  /** Once the first alias is a key, the second alias's value never matters. */
  lemma SecondAliasIgnored(d: map<string, Json>, v: Json)
    ensures "moisture" in d ==> MoistureField(d["moisture_level" := v]) == MoistureField(d)
    ensures "temperature" in d ==> TemperatureField(d["temp" := v]) == TemperatureField(d)
    ensures "battery" in d ==> BatteryField(d["battery_level" := v]) == BatteryField(d)
    ensures "timestamp" in d ==> TimestampField(d["time" := v]) == TimestampField(d)
  {
  }

  // ---------------------------------------------------------------- timestamp

  /**
   * The timestamp the value names: only a truthy string is tried against the
   * formats, first match first; `None` (use "now") otherwise. A non-string
   * makes `strptime` raise TypeError, which the source also turns into "now".
   */
  function ParseTimestampValue(v: Json): (r: Option<DateTime>)
    ensures r.Some? ==> v.JStr? && v.s != []
    ensures r.Some? ==> exists i :: 0 <= i < |Formats| && Strptime(v.s, Formats[i]) == r
    ensures v.JStr? && r.None? ==> forall i :: 0 <= i < |Formats| ==> Strptime(v.s, Formats[i]).None?
  {
    if !Truthy(v) then None
    else match v
      case JStr(s) =>
        (match FirstMatch(Formats, s)
         case Some(m) => Some(m.value)
         case None => None)
      case _ => None
  }

  /** The row's timestamp: the parsed value, else `now`. */
  function ResolveTimestamp(d: map<string, Json>, now: DateTime): DateTime {
    ParseTimestampValue(TimestampField(d)).GetOr(now)
  }

  /** A timestamp written in any accepted layout is stored as exactly that instant. */
  lemma {:induction false} TimestampRoundTrip(d: map<string, Json>, t: DateTime, i: nat, now: DateTime)
    requires Valid(t) && i < |Formats|
    requires TimestampField(d) == JStr(Render(t, Formats[i]))
    ensures ResolveTimestamp(d, now) == t
  {
    var s := Render(t, Formats[i]);
    FirstMatchRender(t, i);
    StrptimeRender(t, Formats[i]);
    assert s != [];
  }

  /** Text that fits no layout, and any absent, empty or non-text value, gives `now`. */
  lemma TimestampFallsBackToNow(d: map<string, Json>, now: DateTime)
    requires var v := TimestampField(d);
      !Truthy(v) || !v.JStr? || forall i :: 0 <= i < |Formats| ==> Strptime(v.s, Formats[i]).None?
    ensures ResolveTimestamp(d, now) == now
  {
  }

  /** "2025-10-28T10:30:00Z" is stored as 2025-10-28 10:30:00. */
  lemma TimestampExample(d: map<string, Json>, now: DateTime)
    requires TimestampField(d) == JStr("2025-10-28T10:30:00Z")
    ensures ResolveTimestamp(d, now) == DateTime(2025, 10, 28, 10, 30, 0)
  {
    var t := DateTime(2025, 10, 28, 10, 30, 0);
    ExampleText(t);
    TimestampRoundTrip(d, t, 2, now);
  }

  lemma ExampleText(t: DateTime)
    requires t == DateTime(2025, 10, 28, 10, 30, 0)
    ensures Valid(t) && Render(t, Formats[2]) == "2025-10-28T10:30:00Z"
  {
    ExampleDate(t);
    ExampleClock(t);
    var date, clock := DateText(t), ClockText(t);
    assert Render(t, Formats[2]) == date + "T" + clock + "Z";
    ExampleConcat(date, clock);
  }

  lemma ExampleConcat(date: string, clock: string)
    requires date == "2025-10-28" && clock == "10:30:00"
    ensures date + "T" + clock + "Z" == "2025-10-28T10:30:00Z"
  {
  }

  lemma ExampleDate(t: DateTime)
    requires t == DateTime(2025, 10, 28, 10, 30, 0)
    ensures Valid(t) && DateText(t) == "2025-10-28"
  {
    var y := PadNat(t.year, 4);
    assert y == "2025" by {
      assert PadNat(2, 1) == "2";
      assert PadNat(20, 2) == "20";
      assert PadNat(202, 3) == "202";
    }
    assert PadNat(t.month, 2) == "10";
    assert PadNat(t.day, 2) == "28";
  }

  lemma ExampleClock(t: DateTime)
    requires t == DateTime(2025, 10, 28, 10, 30, 0)
    ensures Valid(t) && ClockText(t) == "10:30:00"
  {
    assert PadNat(t.hour, 2) == "10";
    assert PadNat(t.minute, 2) == "30";
    assert PadNat(t.second, 2) == "00";
  }

  /** "not-a-date" is stored as `now`. */
  lemma TimestampNotADate(d: map<string, Json>, now: DateTime)
    requires TimestampField(d) == JStr("not-a-date")
    ensures ResolveTimestamp(d, now) == now
  {
    TimestampFallsBackToNow(d, now);
  }

  // ---------------------------------------------------------------- the insert

  /**
   * `_store_sensor_data(sensor_id, data, raw_payload)`: the INSERT's
   * parameter tuple, or `None` when the source logs an error and inserts
   * nothing: `data` is not an object, moisture does not convert with
   * `float()` (a `null` moisture included), or a non-null temperature,
   * humidity or battery value does not convert.
   */
  function StoreRow(sensorId: Json, data: Json, raw: string, now: DateTime): (r: Option<Row>)
    ensures r.Some? <==>
      && data.JObject?
      && ToFloat(MoistureField(data.fields)).Some?
      && ToOptionalFloat(TemperatureField(data.fields)).Some?
      && ToOptionalFloat(HumidityField(data.fields)).Some?
      && ToOptionalFloat(BatteryField(data.fields)).Some?
    ensures r.Some? ==> r.value.sensorId == sensorId && r.value.rawData == raw
    ensures r.Some? ==> r.value.timestamp == ResolveTimestamp(data.fields, now)
    ensures r.Some? ==> Some(r.value.moistureLevel) == ToFloat(MoistureField(data.fields))
    ensures r.Some? ==> (r.value.temperature.None? <==> TemperatureField(data.fields) == JNull)
    ensures r.Some? ==> (r.value.humidity.None? <==> HumidityField(data.fields) == JNull)
    ensures r.Some? ==> (r.value.batteryLevel.None? <==> BatteryField(data.fields) == JNull)
    ensures r.Some? && r.value.temperature.Some? ==> ToFloat(TemperatureField(data.fields)) == r.value.temperature
    ensures r.Some? && r.value.humidity.Some? ==> ToFloat(HumidityField(data.fields)) == r.value.humidity
    ensures r.Some? && r.value.batteryLevel.Some? ==> ToFloat(BatteryField(data.fields)) == r.value.batteryLevel
  {
    if !data.JObject? then None
    else
      var d := data.fields;
      var timestamp := ResolveTimestamp(d, now);
      var moisture := ToFloat(MoistureField(d));
      var temperature := ToOptionalFloat(TemperatureField(d));
      var humidity := ToOptionalFloat(HumidityField(d));
      var battery := ToOptionalFloat(BatteryField(d));
      if moisture.None? || temperature.None? || humidity.None? || battery.None? then None
      else Some(Row(sensorId, timestamp, moisture.value, temperature.value, humidity.value, battery.value, raw))
  }

  /** Whether a row is written never depends on the timestamp field. */
  lemma TimestampNeverAborts(sensorId: Json, d: map<string, Json>, key: string, v: Json, raw: string, now: DateTime)
    requires key == "timestamp" || key == "time"
    ensures StoreRow(sensorId, JObject(d[key := v]), raw, now).Some? == StoreRow(sensorId, JObject(d), raw, now).Some?
  {
    var d' := d[key := v];
    assert MoistureField(d') == MoistureField(d);
    assert TemperatureField(d') == TemperatureField(d);
    assert HumidityField(d') == HumidityField(d);
    assert BatteryField(d') == BatteryField(d);
  }

  /** A present `null` moisture is not replaced by the default: nothing is written. */
  lemma NullMoistureWritesNothing(sensorId: Json, d: map<string, Json>, raw: string, now: DateTime)
    requires "moisture" in d && d["moisture"] == JNull
    ensures StoreRow(sensorId, JObject(d), raw, now) == None
  {
  }

  /** A payload with no moisture key at all is stored with moisture 0.0. */
  lemma MissingMoistureIsZero(sensorId: Json, d: map<string, Json>, raw: string, now: DateTime)
    requires "moisture" !in d && "moisture_level" !in d
    requires ToOptionalFloat(TemperatureField(d)).Some?
    requires ToOptionalFloat(HumidityField(d)).Some?
    requires ToOptionalFloat(BatteryField(d)).Some?
    ensures StoreRow(sensorId, JObject(d), raw, now).Some?
    ensures StoreRow(sensorId, JObject(d), raw, now).value.moistureLevel == 0.0
  {
  }

  /**
   * `_store_sensor_data` step by step: the aliased fields, the `for fmt in
   * ...` search for the timestamp, and the conversions of the INSERT's
   * parameters.
   */
  method StoreSensorData(sensorId: Json, data: Json, raw: string, now: DateTime) returns (r: Option<Row>)
    ensures r == StoreRow(sensorId, data, raw, now)
  {
    if !data.JObject? {
      return None;
    }
    var d := data.fields;
    var timestamp := now;
    var field := TimestampField(d);
    if Truthy(field) && field.JStr? {
      var found := ParseFirst(Formats, field.s);
      FirstMatchUnique(Formats, field.s, found);
      if found.Some? {
        timestamp := found.value.value;
      }
    }
    assert timestamp == ResolveTimestamp(d, now);
    var moisture := ToFloat(MoistureField(d));
    var temperature := ToOptionalFloat(TemperatureField(d));
    var humidity := ToOptionalFloat(HumidityField(d));
    var battery := ToOptionalFloat(BatteryField(d));
    if moisture.None? || temperature.None? || humidity.None? || battery.None? {
      return None;
    }
    r := Some(Row(sensorId, timestamp, moisture.value, temperature.value, humidity.value, battery.value, raw));
  }

  // ---------------------------------------------------------------- the message

  /**
   * The INSERT one message leads to, if any: nothing for a payload that is
   * not UTF-8 or not JSON, or whose id lookup or storage step fails.
   */
  function HandleMessage(msg: Message, now: DateTime): (r: Option<Row>)
    ensures msg.text.None? || msg.document.None? ==> r.None?
    ensures r.Some? ==> r.value.rawData == msg.text.value
    ensures r.Some? ==> msg.document.value.JObject?
    ensures r.Some? ==> Some(r.value.sensorId) == SensorId(msg.topic, msg.document.value)
    ensures r.Some? ==> r.value.timestamp == ResolveTimestamp(msg.document.value.fields, now)
    ensures r.Some? ==> r == StoreRow(r.value.sensorId, msg.document.value, msg.text.value, now)
    ensures msg.text.Some? && msg.document.Some? && msg.document.value.JObject? ==>
      (r.Some? <==> StoreRow(JNull, msg.document.value, msg.text.value, now).Some?)
  {
    match msg.text
    case None => None
    case Some(text) =>
      match msg.document
      case None => None
      case Some(data) =>
        match SensorId(msg.topic, data)
        case None => None
        case Some(id) => StoreRow(id, data, text, now)
  }
}
