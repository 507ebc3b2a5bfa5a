/**
 * Settings resolution shared by the client and the health monitor: every
 * setting is `os.getenv(NAME, config.get(section, option, fallback=DEFAULT))`,
 * so a set environment variable wins (even when it is empty), then the INI
 * file, then the built-in default. Integer settings go through `int()`.
 */
module Config {

  import opened Wrappers
  import opened Text

  type Env = map<string, string>

  /**
   * A parsed INI file as `ConfigParser` holds it: named sections, and the
   * `[DEFAULT]` section whose options every named section inherits.
   */
  datatype Ini = Ini(sections: map<string, map<string, string>>, defaults: map<string, string>)

  const EmptyIni := Ini(map[], map[])

  /** The configuration file as the program finds it. */
  datatype ConfigFile =
    | Missing            // os.path.exists is false
    | Unparsable         // ConfigParser.read raises (e.g. no section header)
    | Parsed(ini: Ini)

  datatype ConfigError =
    | FileNotFound
    | Unreadable
    | NotAnInteger(variable: string)
    | NotAFloat(variable: string)

  /**
   * `config.get(section, option, fallback=fallback)`: a missing section gives
   * the fallback outright; otherwise the section's own option, then the
   * `[DEFAULT]` option, then the fallback.
   */
  function IniGet(ini: Ini, section: string, option: string, fallback: string): (v: string)
    ensures section !in ini.sections ==> v == fallback
    ensures section in ini.sections && option in ini.sections[section] ==> v == ini.sections[section][option]
    ensures section in ini.sections && option !in ini.sections[section] && option in ini.defaults ==> v == ini.defaults[option]
    ensures section in ini.sections && option !in ini.sections[section] && option !in ini.defaults ==> v == fallback
  {
    if section !in ini.sections then fallback
    else if option in ini.sections[section] then ini.sections[section][option]
    else if option in ini.defaults then ini.defaults[option]
    else fallback
  }

  /** `os.getenv(name, config.get(section, option, fallback=default))` */
  function Setting(env: Env, ini: Ini, name: string, section: string, option: string, default: string): string {
    if name in env then env[name] else IniGet(ini, section, option, default)
  }

  /** A set environment variable decides the setting whatever the file says. */
  lemma EnvWins(env: Env, ini1: Ini, ini2: Ini, name: string, section: string, option: string, default: string)
    requires name in env
    ensures Setting(env, ini1, name, section, option, default) == env[name]
    ensures Setting(env, ini1, name, section, option, default) == Setting(env, ini2, name, section, option, default)
  {
  }

  /** Without the variable, an option present in its section decides the setting whatever the default. */
  lemma IniWinsOverDefault(env: Env, ini: Ini, name: string, section: string, option: string, d1: string, d2: string)
    requires name !in env && section in ini.sections && option in ini.sections[section]
    ensures Setting(env, ini, name, section, option, d1) == ini.sections[section][option]
    ensures Setting(env, ini, name, section, option, d1) == Setting(env, ini, name, section, option, d2)
  {
  }

  /** With neither the variable nor the option anywhere in the file, the default applies. */
  lemma DefaultLast(env: Env, ini: Ini, name: string, section: string, option: string, default: string)
    requires name !in env
    requires section !in ini.sections || (option !in ini.sections[section] && option !in ini.defaults)
    ensures Setting(env, ini, name, section, option, default) == default
  {
  }

  /** `int(os.getenv(...))`; the ValueError names the variable. */
  function IntSetting(env: Env, ini: Ini, name: string, section: string, option: string, default: string): (r: Result<int, ConfigError>)
    ensures r.Ok? <==> ParseInt(Setting(env, ini, name, section, option, default)).Some?
    ensures r.Ok? ==> ParseInt(Setting(env, ini, name, section, option, default)) == Some(r.value)
    ensures r.Err? ==> r.error == NotAnInteger(name)
  {
    match ParseInt(Setting(env, ini, name, section, option, default))
    case Some(n) => Ok(n)
    case None => Err(NotAnInteger(name))
  }

  /** `float(os.getenv(...))`; the ValueError names the variable. */
  function FloatSetting(env: Env, ini: Ini, name: string, section: string, option: string, default: string): (r: Result<real, ConfigError>)
    ensures r.Ok? <==> ParseFloat(Setting(env, ini, name, section, option, default)).Some?
    ensures r.Ok? ==> ParseFloat(Setting(env, ini, name, section, option, default)) == Some(r.value)
    ensures r.Err? ==> r.error == NotAFloat(name)
  {
    match ParseFloat(Setting(env, ini, name, section, option, default))
    case Some(x) => Ok(x)
    case None => Err(NotAFloat(name))
  }

  /** A setting whose text is a decimal numeral is that number. */
  lemma IntOfNumeral(env: Env, ini: Ini, name: string, section: string, option: string, default: string, n: nat)
    requires Setting(env, ini, name, section, option, default) == ShowNat(n)
    ensures IntSetting(env, ini, name, section, option, default) == Ok(n)
  {
    assert ShowInt(n) == ShowNat(n);
    ParseIntShowInt(n);
  }

  /** A setting whose text is a numeral followed by ".0" is that number as a float. */
  lemma FloatOfNumeral(env: Env, ini: Ini, name: string, section: string, option: string, default: string, n: nat)
    requires Setting(env, ini, name, section, option, default) == ShowNat(n) + ".0"
    ensures FloatSetting(env, ini, name, section, option, default) == Ok(n as real)
  {
    PointZero(n);
    ParseFloatNumeral(n);
  }

  // ---------------------------------------------------------------- client settings

  datatype ClientSettings = ClientSettings(
    mqttBroker: string,
    mqttPort: int,
    mqttUsername: string,
    mqttPassword: string,
    mqttTopic: string,
    dbHost: string,
    dbPort: int,
    dbName: string,
    dbUser: string,
    dbPassword: string,
    clientId: string,
    reconnectDelay: int,
    maxRuntime: int)

  /** The text values of the client's settings, each resolved env > INI > default. */
  predicate ClientStringsResolved(s: ClientSettings, env: Env, ini: Ini) {
    && s.mqttBroker == Setting(env, ini, "MQTT_BROKER", "mqtt", "broker", "localhost")
    && s.mqttUsername == Setting(env, ini, "MQTT_USERNAME", "mqtt", "username", "")
    && s.mqttPassword == Setting(env, ini, "MQTT_PASSWORD", "mqtt", "password", "")
    && s.mqttTopic == Setting(env, ini, "MQTT_TOPIC", "mqtt", "topic", "moisture/+/data")
    && s.dbHost == Setting(env, ini, "DB_HOST", "database", "host", "localhost")
    && s.dbName == Setting(env, ini, "DB_NAME", "database", "name", "moisture_db")
    && s.dbUser == Setting(env, ini, "DB_USER", "database", "user", "root")
    && s.dbPassword == Setting(env, ini, "DB_PASSWORD", "database", "password", "")
    && s.clientId == Setting(env, ini, "CLIENT_ID", "client", "id", "moisture_client")
  }

  /** The integer values of the client's settings, each `int()` of its resolved text. */
  predicate ClientIntsResolved(s: ClientSettings, env: Env, ini: Ini) {
    && IntSetting(env, ini, "MQTT_PORT", "mqtt", "port", "1883") == Ok(s.mqttPort)
    && IntSetting(env, ini, "DB_PORT", "database", "port", "3306") == Ok(s.dbPort)
    && IntSetting(env, ini, "RECONNECT_DELAY", "client", "reconnect_delay", "5") == Ok(s.reconnectDelay)
    && IntSetting(env, ini, "MAX_RUNTIME", "client", "max_runtime", "300") == Ok(s.maxRuntime)
  }

  /**
   * `MoistureClient._load_config`: a missing file raises FileNotFoundError
   * before anything is read; an unreadable one raises from `config.read`;
   * otherwise the settings in source order, the first integer setting whose
   * text `int()` rejects raising its ValueError.
   */
  function LoadClientConfig(file: ConfigFile, env: Env): (r: Result<ClientSettings, ConfigError>)
    ensures file.Missing? ==> r == Err(FileNotFound)
    ensures file.Unparsable? ==> r == Err(Unreadable)
    ensures r.Ok? ==> file.Parsed? && ClientStringsResolved(r.value, env, file.ini) && ClientIntsResolved(r.value, env, file.ini)
    ensures file.Parsed? && r.Err? ==> r.error.NotAnInteger?
    ensures file.Parsed? && r.Err? ==> r.error == NotAnInteger("MQTT_PORT") || r.error == NotAnInteger("DB_PORT") || r.error == NotAnInteger("RECONNECT_DELAY") || r.error == NotAnInteger("MAX_RUNTIME")
    ensures file.Parsed? ==> (r.Ok? <==>
      && IntSetting(env, file.ini, "MQTT_PORT", "mqtt", "port", "1883").Ok?
      && IntSetting(env, file.ini, "DB_PORT", "database", "port", "3306").Ok?
      && IntSetting(env, file.ini, "RECONNECT_DELAY", "client", "reconnect_delay", "5").Ok?
      && IntSetting(env, file.ini, "MAX_RUNTIME", "client", "max_runtime", "300").Ok?)
  {
    match file
    case Missing => Err(FileNotFound)
    case Unparsable => Err(Unreadable)
    case Parsed(ini) =>
      var mqttPort := IntSetting(env, ini, "MQTT_PORT", "mqtt", "port", "1883");
      var dbPort := IntSetting(env, ini, "DB_PORT", "database", "port", "3306");
      var reconnectDelay := IntSetting(env, ini, "RECONNECT_DELAY", "client", "reconnect_delay", "5");
      var maxRuntime := IntSetting(env, ini, "MAX_RUNTIME", "client", "max_runtime", "300");
      if mqttPort.Err? then Err(mqttPort.error)
      else if dbPort.Err? then Err(dbPort.error)
      else if reconnectDelay.Err? then Err(reconnectDelay.error)
      else if maxRuntime.Err? then Err(maxRuntime.error)
      else Ok(ClientSettings(
        Setting(env, ini, "MQTT_BROKER", "mqtt", "broker", "localhost"),
        mqttPort.value,
        Setting(env, ini, "MQTT_USERNAME", "mqtt", "username", ""),
        Setting(env, ini, "MQTT_PASSWORD", "mqtt", "password", ""),
        Setting(env, ini, "MQTT_TOPIC", "mqtt", "topic", "moisture/+/data"),
        Setting(env, ini, "DB_HOST", "database", "host", "localhost"),
        dbPort.value,
        Setting(env, ini, "DB_NAME", "database", "name", "moisture_db"),
        Setting(env, ini, "DB_USER", "database", "user", "root"),
        Setting(env, ini, "DB_PASSWORD", "database", "password", ""),
        Setting(env, ini, "CLIENT_ID", "client", "id", "moisture_client"),
        reconnectDelay.value,
        maxRuntime.value))
  }

  /** The decimal spellings of the client's port defaults. */
  lemma PortNumerals()
    ensures ShowNat(1883) == "1883" && ShowNat(3306) == "3306"
  {
    assert ShowNat(18) == "18";
    assert ShowNat(188) == "188";
    assert ShowNat(33) == "33";
    assert ShowNat(330) == "330";
  }

  /** With nothing set, the client's integer settings are their defaults. */
  lemma ClientPortDefaults(env: Env, ini: Ini)
    requires env == map[] && ini == EmptyIni
    ensures IntSetting(env, ini, "MQTT_PORT", "mqtt", "port", "1883") == Ok(1883)
    ensures IntSetting(env, ini, "DB_PORT", "database", "port", "3306") == Ok(3306)
  {
    PortNumerals();
    IntOfNumeral(env, ini, "MQTT_PORT", "mqtt", "port", "1883", 1883);
    IntOfNumeral(env, ini, "DB_PORT", "database", "port", "3306", 3306);
  }

  lemma ClientTimingDefaults(env: Env, ini: Ini)
    requires env == map[] && ini == EmptyIni
    ensures IntSetting(env, ini, "RECONNECT_DELAY", "client", "reconnect_delay", "5") == Ok(5)
    ensures IntSetting(env, ini, "MAX_RUNTIME", "client", "max_runtime", "300") == Ok(300)
  {
    assert ShowNat(5) == "5";
    assert ShowNat(300) == "300" by {
      assert ShowNat(30) == "30";
    }
    IntOfNumeral(env, ini, "RECONNECT_DELAY", "client", "reconnect_delay", "5", 5);
    IntOfNumeral(env, ini, "MAX_RUNTIME", "client", "max_runtime", "300", 300);
  }

  /**
   * With no variable set and a configuration file that names none of the
   * options, every client setting takes its built-in default.
   */
  lemma ClientDefaults(env: Env, ini: Ini)
    requires env == map[] && ini == EmptyIni
    ensures LoadClientConfig(Parsed(ini), env) == Ok(ClientSettings(
      "localhost", 1883, "", "", "moisture/+/data",
      "localhost", 3306, "moisture_db", "root", "",
      "moisture_client", 5, 300))
  {
    ClientPortDefaults(env, ini);
    ClientTimingDefaults(env, ini);
  }
}
