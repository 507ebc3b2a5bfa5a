/**
 * `scripts/health_monitor.py`: the alert thresholds, the alert rules that
 * `check_sensor_health` applies to each active sensor's latest reading, the
 * counters of `generate_summary_report`, and the exit status of `main`.
 * The database query is replaced by its result: the rows it fetched, or
 * nothing when the connection or the query failed.
 */
module Health {

  import opened Wrappers
  import opened Text
  import opened Config

  // ---------------------------------------------------------------- settings

  datatype Thresholds = Thresholds(moistureLow: real, moistureHigh: real, batteryLow: real, sensorOffline: int)

  datatype HealthSettings = HealthSettings(
    dbHost: string,
    dbPort: int,
    dbName: string,
    dbUser: string,
    dbPassword: string,
    thresholds: Thresholds)

  /** The INI the monitor reads: a missing file is no error, it leaves every option unset. */
  function IniOf(file: ConfigFile): (ini: Ini)
    ensures file.Parsed? ==> ini == file.ini
    ensures file.Missing? ==> ini == EmptyIni
  {
    if file.Parsed? then file.ini else EmptyIni
  }

  function MoistureLowSetting(env: Env, ini: Ini): Result<real, ConfigError> {
    FloatSetting(env, ini, "MOISTURE_LOW_THRESHOLD", "alerts", "moisture_low_threshold", "20.0")
  }

  function MoistureHighSetting(env: Env, ini: Ini): Result<real, ConfigError> {
    FloatSetting(env, ini, "MOISTURE_HIGH_THRESHOLD", "alerts", "moisture_high_threshold", "80.0")
  }

  function BatteryLowSetting(env: Env, ini: Ini): Result<real, ConfigError> {
    FloatSetting(env, ini, "BATTERY_LOW_THRESHOLD", "alerts", "battery_low_threshold", "10.0")
  }

  function SensorOfflineSetting(env: Env, ini: Ini): Result<int, ConfigError> {
    IntSetting(env, ini, "SENSOR_OFFLINE_THRESHOLD", "alerts", "sensor_offline_threshold", "3600")
  }

  function DbPortSetting(env: Env, ini: Ini): Result<int, ConfigError> {
    IntSetting(env, ini, "DB_PORT", "database", "port", "3306")
  }

  /**
   * `HealthMonitor._load_config`: the file is read only when it exists;
   * each setting is env > INI > default, in source order, the first one
   * that `int()` or `float()` rejects raising its ValueError.
   */
  function LoadHealthConfig(file: ConfigFile, env: Env): (r: Result<HealthSettings, ConfigError>)
    ensures file.Unparsable? ==> r == Err(Unreadable)
    ensures r.Ok? ==>
      var ini := IniOf(file);
      && r.value.dbHost == Setting(env, ini, "DB_HOST", "database", "host", "localhost")
      && DbPortSetting(env, ini) == Ok(r.value.dbPort)
      && r.value.dbName == Setting(env, ini, "DB_NAME", "database", "name", "moisture_db")
      && r.value.dbUser == Setting(env, ini, "DB_USER", "database", "user", "root")
      && r.value.dbPassword == Setting(env, ini, "DB_PASSWORD", "database", "password", "")
      && MoistureLowSetting(env, ini) == Ok(r.value.thresholds.moistureLow)
      && MoistureHighSetting(env, ini) == Ok(r.value.thresholds.moistureHigh)
      && BatteryLowSetting(env, ini) == Ok(r.value.thresholds.batteryLow)
      && SensorOfflineSetting(env, ini) == Ok(r.value.thresholds.sensorOffline)
    ensures !file.Unparsable? ==>
      var ini := IniOf(file);
      (r.Ok? <==>
        && DbPortSetting(env, ini).Ok?
        && MoistureLowSetting(env, ini).Ok?
        && MoistureHighSetting(env, ini).Ok?
        && BatteryLowSetting(env, ini).Ok?
        && SensorOfflineSetting(env, ini).Ok?)
    ensures r.Err? ==> r.error in {Unreadable, NotAnInteger("DB_PORT"), NotAFloat("MOISTURE_LOW_THRESHOLD"),
      NotAFloat("MOISTURE_HIGH_THRESHOLD"), NotAFloat("BATTERY_LOW_THRESHOLD"), NotAnInteger("SENSOR_OFFLINE_THRESHOLD")}
  {
    if file.Unparsable? then Err(Unreadable)
    else
      var ini := IniOf(file);
      var dbPort := DbPortSetting(env, ini);
      var moistureLow := MoistureLowSetting(env, ini);
      var moistureHigh := MoistureHighSetting(env, ini);
      var batteryLow := BatteryLowSetting(env, ini);
      var sensorOffline := SensorOfflineSetting(env, ini);
      if dbPort.Err? then Err(dbPort.error)
      else if moistureLow.Err? then Err(moistureLow.error)
      else if moistureHigh.Err? then Err(moistureHigh.error)
      else if batteryLow.Err? then Err(batteryLow.error)
      else if sensorOffline.Err? then Err(sensorOffline.error)
      else Ok(HealthSettings(
        Setting(env, ini, "DB_HOST", "database", "host", "localhost"),
        dbPort.value,
        Setting(env, ini, "DB_NAME", "database", "name", "moisture_db"),
        Setting(env, ini, "DB_USER", "database", "user", "root"),
        Setting(env, ini, "DB_PASSWORD", "database", "password", ""),
        Thresholds(moistureLow.value, moistureHigh.value, batteryLow.value, sensorOffline.value)))
  }

  /** A threshold variable in the environment decides the threshold, whatever the file says. */
  lemma ThresholdFromEnvironment(file1: ConfigFile, file2: ConfigFile, env: Env)
    requires !file1.Unparsable? && !file2.Unparsable?
    requires LoadHealthConfig(file1, env).Ok? && LoadHealthConfig(file2, env).Ok?
    requires "MOISTURE_LOW_THRESHOLD" in env && "MOISTURE_HIGH_THRESHOLD" in env
    requires "BATTERY_LOW_THRESHOLD" in env && "SENSOR_OFFLINE_THRESHOLD" in env
    ensures LoadHealthConfig(file1, env).value.thresholds == LoadHealthConfig(file2, env).value.thresholds
  {
    var t1, t2 := LoadHealthConfig(file1, env).value.thresholds, LoadHealthConfig(file2, env).value.thresholds;
    var i1, i2 := IniOf(file1), IniOf(file2);
    assert MoistureLowSetting(env, i1) == MoistureLowSetting(env, i2);
    assert MoistureHighSetting(env, i1) == MoistureHighSetting(env, i2);
    assert BatteryLowSetting(env, i1) == BatteryLowSetting(env, i2);
    assert SensorOfflineSetting(env, i1) == SensorOfflineSetting(env, i2);
  }

  /** The decimal spellings of the monitor's numeric defaults. */
  lemma HealthNumerals()
    ensures ShowNat(3306) == "3306" && ShowNat(3600) == "3600"
    ensures ShowNat(20) == "20" && ShowNat(80) == "80" && ShowNat(10) == "10"
  {
    assert ShowNat(33) == "33";
    assert ShowNat(330) == "330";
    assert ShowNat(36) == "36";
    assert ShowNat(360) == "360";
  }

  lemma MoistureLowDefault(env: Env, ini: Ini)
    requires env == map[] && ini == EmptyIni
    ensures MoistureLowSetting(env, ini) == Ok(20.0)
  {
    HealthNumerals();
    FloatOfNumeral(env, ini, "MOISTURE_LOW_THRESHOLD", "alerts", "moisture_low_threshold", "20.0", 20);
  }

  lemma MoistureHighDefault(env: Env, ini: Ini)
    requires env == map[] && ini == EmptyIni
    ensures MoistureHighSetting(env, ini) == Ok(80.0)
  {
    HealthNumerals();
    FloatOfNumeral(env, ini, "MOISTURE_HIGH_THRESHOLD", "alerts", "moisture_high_threshold", "80.0", 80);
  }

  lemma BatteryLowDefault(env: Env, ini: Ini)
    requires env == map[] && ini == EmptyIni
    ensures BatteryLowSetting(env, ini) == Ok(10.0)
  {
    HealthNumerals();
    FloatOfNumeral(env, ini, "BATTERY_LOW_THRESHOLD", "alerts", "battery_low_threshold", "10.0", 10);
  }

  lemma IntDefaults(env: Env, ini: Ini)
    requires env == map[] && ini == EmptyIni
    ensures SensorOfflineSetting(env, ini) == Ok(3600)
    ensures DbPortSetting(env, ini) == Ok(3306)
  {
    HealthNumerals();
    IntOfNumeral(env, ini, "SENSOR_OFFLINE_THRESHOLD", "alerts", "sensor_offline_threshold", "3600", 3600);
    IntOfNumeral(env, ini, "DB_PORT", "database", "port", "3306", 3306);
  }

  /**
   * A missing configuration file is no error: with no variable set, every
   * setting takes its built-in default, the thresholds 20.0, 80.0, 10.0 and
   * 3600 seconds among them.
   */
  lemma HealthDefaults(env: Env)
    requires env == map[]
    ensures LoadHealthConfig(Missing, env) ==
      Ok(HealthSettings("localhost", 3306, "moisture_db", "root", "", Thresholds(20.0, 80.0, 10.0, 3600)))
  {
    var ini := IniOf(Missing);
    MoistureLowDefault(env, ini);
    MoistureHighDefault(env, ini);
    BatteryLowDefault(env, ini);
    IntDefaults(env, ini);
  }

  // ---------------------------------------------------------------- alerts

  /** One row of the latest-reading query; `None` is SQL NULL (no reading yet). */
  datatype SensorRow = SensorRow(
    sensorId: string,
    moisture: Option<real>,
    temperature: Option<real>,
    battery: Option<real>,
    secondsSince: Option<int>)

  datatype AlertType = SensorOffline | MoistureLow | MoistureHigh | BatteryLow

  datatype Severity = High | Medium

  datatype Alert = Alert(kind: AlertType, severity: Severity)

  /** The severity each alert type always carries. */
  function SeverityOf(kind: AlertType): Severity {
    if kind == MoistureLow || kind == MoistureHigh then Medium else High
  }

  /** The position of each kind in the order the rules run. */
  function Rank(kind: AlertType): nat {
    match kind
    case SensorOffline => 0
    case MoistureLow => 1
    case MoistureHigh => 1
    case BatteryLow => 2
  }

  predicate IsOffline(row: SensorRow, th: Thresholds) {
    row.secondsSince.None? || row.secondsSince.value > th.sensorOffline
  }

  predicate IsMoistureLow(row: SensorRow, th: Thresholds) {
    row.moisture.Some? && row.moisture.value < th.moistureLow
  }

  predicate IsMoistureHigh(row: SensorRow, th: Thresholds) {
    row.moisture.Some? && !(row.moisture.value < th.moistureLow) && row.moisture.value > th.moistureHigh
  }

  predicate IsBatteryLow(row: SensorRow, th: Thresholds) {
    row.battery.Some? && row.battery.value < th.batteryLow
  }

  /**
   * The alerts `check_sensor_health` appends for one row: offline (high),
   * then at most one moisture alert (medium), then low battery (high).
   */
  function AlertsFor(row: SensorRow, th: Thresholds): (r: seq<Alert>)
    ensures |r| <= 3
  {
    OfflineAlerts(row, th) + MoistureAlerts(row, th) + BatteryAlerts(row, th)
  }

  /** The offline rule: no reading at all, or one older than the threshold. */
  function OfflineAlerts(row: SensorRow, th: Thresholds): seq<Alert> {
    if IsOffline(row, th) then [Alert(SensorOffline, High)] else []
  }

  /** The moisture rule: low, else high, and nothing without a reading. */
  function MoistureAlerts(row: SensorRow, th: Thresholds): seq<Alert> {
    if row.moisture.Some? then
      (if row.moisture.value < th.moistureLow then [Alert(MoistureLow, Medium)]
       else if row.moisture.value > th.moistureHigh then [Alert(MoistureHigh, Medium)]
       else [])
    else []
  }

  /** The battery rule. */
  function BatteryAlerts(row: SensorRow, th: Thresholds): seq<Alert> {
    if IsBatteryLow(row, th) then [Alert(BatteryLow, High)] else []
  }

  /**
   * Each alert carries its type's fixed severity, and the alerts come in
   * rule order: at most one of each type, and at most one moisture alert.
   */
  lemma AlertOrder(row: SensorRow, th: Thresholds)
    ensures var r := AlertsFor(row, th);
      && (forall i :: 0 <= i < |r| ==> r[i].severity == SeverityOf(r[i].kind))
      && (forall i, j :: 0 <= i < j < |r| ==> Rank(r[i].kind) < Rank(r[j].kind))
  {
    var o, m, b := OfflineAlerts(row, th), MoistureAlerts(row, th), BatteryAlerts(row, th);
    assert AlertsFor(row, th) == o + m + b;
  }

  /**
   * Each type of alert is present exactly when its rule holds; without a
   * moisture value only high alerts can arise.
   */
  lemma AlertRules(row: SensorRow, th: Thresholds)
    ensures var r := AlertsFor(row, th);
      && (Alert(SensorOffline, High) in r <==> IsOffline(row, th))
      && (Alert(MoistureLow, Medium) in r <==> IsMoistureLow(row, th))
      && (Alert(MoistureHigh, Medium) in r <==> IsMoistureHigh(row, th))
      && (Alert(BatteryLow, High) in r <==> IsBatteryLow(row, th))
      && (row.moisture.None? ==> forall a :: a in r ==> a.severity == High)
  {
    var o, m, b := OfflineAlerts(row, th), MoistureAlerts(row, th), BatteryAlerts(row, th);
    var r := AlertsFor(row, th);
    assert r == o + m + b;
    assert forall a :: a in r <==> a in o || a in m || a in b;
  }

  /** Every alert `AlertsFor` returns is one of the four, named by its rule. */
  lemma AlertsExactly(row: SensorRow, th: Thresholds, a: Alert)
    ensures a in AlertsFor(row, th) <==>
      || (a == Alert(SensorOffline, High) && IsOffline(row, th))
      || (a == Alert(MoistureLow, Medium) && IsMoistureLow(row, th))
      || (a == Alert(MoistureHigh, Medium) && IsMoistureHigh(row, th))
      || (a == Alert(BatteryLow, High) && IsBatteryLow(row, th))
  {
    AlertRules(row, th);
  }

  /** The status dict built for one row. */
  datatype SensorStatus = SensorStatus(row: SensorRow, alerts: seq<Alert>)

  function StatusOf(row: SensorRow, th: Thresholds): SensorStatus {
    SensorStatus(row, AlertsFor(row, th))
  }

  /** The body of `check_sensor_health`'s loop: the rules append to `status['alerts']` one by one. */
  method CheckRow(row: SensorRow, th: Thresholds) returns (alerts: seq<Alert>)
    ensures alerts == AlertsFor(row, th)
  {
    alerts := [];
    if row.secondsSince.None? || row.secondsSince.value > th.sensorOffline {
      alerts := alerts + [Alert(SensorOffline, High)];
    }
    if row.moisture.Some? {
      if row.moisture.value < th.moistureLow {
        alerts := alerts + [Alert(MoistureLow, Medium)];
      } else if row.moisture.value > th.moistureHigh {
        alerts := alerts + [Alert(MoistureHigh, Medium)];
      }
    }
    if row.battery.Some? && row.battery.value < th.batteryLow {
      alerts := alerts + [Alert(BatteryLow, High)];
    }
  }

  /**
   * `check_sensor_health`: one status per fetched row, in order, its alerts
   * appended rule by rule; an empty list when the connection or the query
   * failed.
   */
  method CheckSensorHealth(fetched: Option<seq<SensorRow>>, th: Thresholds) returns (statuses: seq<SensorStatus>)
    ensures fetched.None? ==> statuses == []
    ensures fetched.Some? ==> |statuses| == |fetched.value|
    ensures fetched.Some? ==> forall i :: 0 <= i < |statuses| ==> statuses[i] == StatusOf(fetched.value[i], th)
  {
    statuses := [];
    if fetched.None? {
      return;
    }
    var rows := fetched.value;
    var i := 0;
    while i < |rows|
      invariant 0 <= i <= |rows|
      invariant |statuses| == i
      invariant forall k :: 0 <= k < i ==> statuses[k] == StatusOf(rows[k], th)
    {
      var alerts := CheckRow(rows[i], th);
      statuses := statuses + [SensorStatus(rows[i], alerts)];
      i := i + 1;
    }
  }

  // ---------------------------------------------------------------- summary

  datatype Summary = Summary(
    totalAlerts: nat,
    highSeverityAlerts: nat,
    mediumSeverityAlerts: nat,
    offlineSensors: nat,
    healthySensors: nat)

  /** How many of the alerts carry the severity. */
  function CountSeverity(alerts: seq<Alert>, severity: Severity): (n: nat)
    ensures n <= |alerts|
  {
    if alerts == [] then 0
    else CountSeverity(alerts[..|alerts| - 1], severity) + (if alerts[|alerts| - 1].severity == severity then 1 else 0)
  }

  /** `any(alert['type'] == 'sensor_offline' for alert in alerts)` */
  predicate HasOffline(alerts: seq<Alert>) {
    exists a :: a in alerts && a.kind == SensorOffline
  }

  /** Some alert carries the severity. */
  predicate HasSeverity(alerts: seq<Alert>, severity: Severity) {
    exists i :: 0 <= i < |alerts| && alerts[i].severity == severity
  }

  function TotalAlerts(sensors: seq<SensorStatus>): nat {
    if sensors == [] then 0
    else TotalAlerts(sensors[..|sensors| - 1]) + |sensors[|sensors| - 1].alerts|
  }

  function SeverityAlerts(sensors: seq<SensorStatus>, severity: Severity): nat {
    if sensors == [] then 0
    else SeverityAlerts(sensors[..|sensors| - 1], severity) + CountSeverity(sensors[|sensors| - 1].alerts, severity)
  }

  function OfflineSensors(sensors: seq<SensorStatus>): (n: nat)
    ensures n <= |sensors|
  {
    if sensors == [] then 0
    else OfflineSensors(sensors[..|sensors| - 1]) + (if HasOffline(sensors[|sensors| - 1].alerts) then 1 else 0)
  }

  /** The summary the counters add up to: a sensor without an offline alert counts as healthy. */
  function SummaryOf(sensors: seq<SensorStatus>): Summary {
    Summary(TotalAlerts(sensors), SeverityAlerts(sensors, High), SeverityAlerts(sensors, Medium),
      OfflineSensors(sensors), |sensors| - OfflineSensors(sensors))
  }

  /** Every alert is either high or medium. */
  lemma {:induction false} SeveritiesSplit(alerts: seq<Alert>)
    ensures CountSeverity(alerts, High) + CountSeverity(alerts, Medium) == |alerts|
  {
    if alerts != [] {
      SeveritiesSplit(alerts[..|alerts| - 1]);
    }
  }

  /** `total_alerts == high_severity_alerts + medium_severity_alerts` */
  lemma {:induction false} TotalIsHighPlusMedium(sensors: seq<SensorStatus>)
    ensures TotalAlerts(sensors) == SeverityAlerts(sensors, High) + SeverityAlerts(sensors, Medium)
  {
    if sensors != [] {
      TotalIsHighPlusMedium(sensors[..|sensors| - 1]);
      SeveritiesSplit(sensors[|sensors| - 1].alerts);
    }
  }

  /** Some alert has the severity exactly when the count is positive. */
  lemma {:induction false} CountSeverityPositive(alerts: seq<Alert>, severity: Severity)
    ensures CountSeverity(alerts, severity) > 0 <==> HasSeverity(alerts, severity)
  {
    if alerts != [] {
      var init := alerts[..|alerts| - 1];
      CountSeverityPositive(init, severity);
      if CountSeverity(init, severity) > 0 {
        var i :| 0 <= i < |init| && init[i].severity == severity;
        assert alerts[i] == init[i];
      }
      if HasSeverity(alerts, severity) {
        var i :| 0 <= i < |alerts| && alerts[i].severity == severity;
        if i < |init| {
          assert init[i] == alerts[i];
        }
      }
    }
  }

  /** The high counter is positive exactly when some sensor has a high alert. */
  lemma {:induction false} HighAlertsPositive(sensors: seq<SensorStatus>)
    ensures SeverityAlerts(sensors, High) > 0 <==>
      exists i :: 0 <= i < |sensors| && HasSeverity(sensors[i].alerts, High)
  {
    if sensors != [] {
      var init := sensors[..|sensors| - 1];
      var last := sensors[|sensors| - 1];
      HighAlertsPositive(init);
      CountSeverityPositive(last.alerts, High);
      if SeverityAlerts(init, High) > 0 {
        var i :| 0 <= i < |init| && HasSeverity(init[i].alerts, High);
        assert sensors[i] == init[i];
      }
      if exists i :: 0 <= i < |sensors| && HasSeverity(sensors[i].alerts, High) {
        var i :| 0 <= i < |sensors| && HasSeverity(sensors[i].alerts, High);
        if i < |init| {
          assert init[i] == sensors[i];
        }
      }
    }
  }

  /** The inner loop of `generate_summary_report`: one pass over a sensor's alerts, counting by severity. */
  method CountAlerts(alerts: seq<Alert>) returns (high: nat, medium: nat)
    ensures high == CountSeverity(alerts, High) && medium == CountSeverity(alerts, Medium)
    ensures high + medium == |alerts|
  {
    high, medium := 0, 0;
    var j := 0;
    while j < |alerts|
      invariant 0 <= j <= |alerts|
      invariant high == CountSeverity(alerts[..j], High)
      invariant medium == CountSeverity(alerts[..j], Medium)
    {
      assert alerts[..j + 1][..j] == alerts[..j];
      if alerts[j].severity == High {
        high := high + 1;
      } else if alerts[j].severity == Medium {
        medium := medium + 1;
      }
      j := j + 1;
    }
    assert alerts[..j] == alerts;
    SeveritiesSplit(alerts);
  }

  /**
   * `generate_summary_report`'s counters, accumulated sensor by sensor and
   * alert by alert; a sensor with no alerts, or only moisture and battery
   * alerts, counts as healthy.
   */
  method GenerateSummary(sensors: seq<SensorStatus>) returns (summary: Summary)
    ensures summary == SummaryOf(sensors)
    ensures summary.totalAlerts == summary.highSeverityAlerts + summary.mediumSeverityAlerts
    ensures summary.offlineSensors + summary.healthySensors == |sensors|
  {
    summary := Summary(0, 0, 0, 0, 0);
    var i := 0;
    while i < |sensors|
      invariant 0 <= i <= |sensors|
      invariant summary.totalAlerts == TotalAlerts(sensors[..i])
      invariant summary.highSeverityAlerts == SeverityAlerts(sensors[..i], High)
      invariant summary.mediumSeverityAlerts == SeverityAlerts(sensors[..i], Medium)
      invariant summary.offlineSensors == OfflineSensors(sensors[..i])
      invariant summary.healthySensors == i - OfflineSensors(sensors[..i])
    {
      var alerts := sensors[i].alerts;
      assert sensors[..i + 1][..i] == sensors[..i];
      if alerts != [] {
        var high, medium := CountAlerts(alerts);
        summary := summary.(totalAlerts := summary.totalAlerts + |alerts|,
          highSeverityAlerts := summary.highSeverityAlerts + high,
          mediumSeverityAlerts := summary.mediumSeverityAlerts + medium);
        if HasOffline(alerts) {
          summary := summary.(offlineSensors := summary.offlineSensors + 1);
        } else {
          summary := summary.(healthySensors := summary.healthySensors + 1);
        }
      } else {
        summary := summary.(healthySensors := summary.healthySensors + 1);
      }
      i := i + 1;
    }
    assert sensors[..i] == sensors;
    TotalIsHighPlusMedium(sensors);
  }

  /** `main`: status 1 exactly when some alert is of high severity. */
  function ExitCode(summary: Summary): (code: int)
    ensures code == 0 || code == 1
    ensures code == 1 <==> summary.highSeverityAlerts > 0
  {
    if summary.highSeverityAlerts > 0 then 1 else 0
  }

  /** A high alert on a row is an offline sensor or a low battery. */
  lemma HighAlertMeans(row: SensorRow, th: Thresholds)
    ensures HasSeverity(AlertsFor(row, th), High) <==> HighRow(row, th)
  {
    var r := AlertsFor(row, th);
    if IsOffline(row, th) {
      assert r[0] == Alert(SensorOffline, High);
    } else if IsBatteryLow(row, th) {
      assert r[|r| - 1] == Alert(BatteryLow, High);
    }
  }

  /** The rows whose alerts include a high-severity one. */
  predicate HighRow(row: SensorRow, th: Thresholds) {
    IsOffline(row, th) || IsBatteryLow(row, th)
  }

  lemma PointwiseHigh(rows: seq<SensorRow>, th: Thresholds, statuses: seq<SensorStatus>)
    requires |statuses| == |rows|
    requires forall i :: 0 <= i < |statuses| ==> statuses[i] == StatusOf(rows[i], th)
    ensures forall i :: 0 <= i < |rows| ==> (HasSeverity(statuses[i].alerts, High) <==> HighRow(rows[i], th))
  {
    forall i | 0 <= i < |rows|
      ensures HasSeverity(statuses[i].alerts, High) <==> HighRow(rows[i], th)
    {
      HighAlertMeans(rows[i], th);
    }
  }

  /** Over the statuses of the fetched rows, the high counter is positive exactly when some row is offline or low on battery. */
  lemma HighVerdict(rows: seq<SensorRow>, th: Thresholds, statuses: seq<SensorStatus>)
    requires |statuses| == |rows|
    requires forall i :: 0 <= i < |statuses| ==> statuses[i] == StatusOf(rows[i], th)
    ensures SeverityAlerts(statuses, High) > 0 <==> exists i :: 0 <= i < |rows| && HighRow(rows[i], th)
  {
    PointwiseHigh(rows, th, statuses);
    HighAlertsPositive(statuses);
  }

  /**
   * The monitor's verdict end to end: with the thresholds loaded, it exits 1
   * exactly when some fetched sensor is offline or has a low battery, and 0
   * otherwise (in particular when nothing could be fetched). Moisture alerts
   * never change the status.
   */
  method HealthMain(file: ConfigFile, env: Env, fetched: Option<seq<SensorRow>>) returns (code: int)
    ensures code == 0 || code == 1
    ensures LoadHealthConfig(file, env).Err? ==> code == 1
    ensures LoadHealthConfig(file, env).Ok? ==>
      var th := LoadHealthConfig(file, env).value.thresholds;
      (code == 1 <==> fetched.Some? && exists i :: 0 <= i < |fetched.value| && HighRow(fetched.value[i], th))
  {
    var loaded := LoadHealthConfig(file, env);
    if loaded.Err? {
      return 1;
    }
    var th := loaded.value.thresholds;
    var statuses := CheckSensorHealth(fetched, th);
    var summary := GenerateSummary(statuses);
    code := ExitCode(summary);
    if fetched.Some? {
      HighVerdict(fetched.value, th, statuses);
    }
  }
}
