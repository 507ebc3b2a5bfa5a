# moisture_daemon in Dafny

A verified model of the two programs of the moisture daemon:

- `moisture_client.py` subscribes to per-sensor MQTT topics and turns each JSON message into at most one row of `moisture_readings`. It resolves its settings from the environment, the INI file and built-in defaults. It connects to MySQL and the broker and supervises the connection in a `while self.running` loop until the maximum runtime has passed, a database reconnect fails or a signal arrives. It then cleans up and exits 0 or 1.
- `scripts/health_monitor.py` resolves its alert thresholds the same way. It runs four alert rules on the latest reading of every active sensor, adds the alerts up into a summary, and exits 1 exactly when some alert has high severity.

MySQL, paho-mqtt and the clock are replaced by oracles:

- a `World` of answers consumed in order: successive `time.time()` readings, `is_connected()` answers, outcomes of `mysql.connector.connect`, whether the tables are created, whether the broker connect returns, whether the handle's `cursor()` and `execute()` succeed for each INSERT, and whether a signal arrives during each `time.sleep(1)`;
- for the health monitor, the rows the latest-reading query returns (or `None` when no connection or query succeeded).

What the client does to those libraries is recorded, in order, as a log of calls.

Modules:

- `Wrappers`: `Option` and `Result`.
- `Text`: `str.split`, `str.strip`, and the `int()` / `float()` parsers on text.
- `PyValues`: the Python value a JSON payload decodes to, `dict.get`, truth testing and `float()`.
- `Config`: settings resolution, where an environment variable beats the INI option, which beats the default; also the client's `_load_config`.
- `Timestamps`: the three `strptime` layouts as fixed-width recognisers, and the ordered first-match search.
- `Normalizer`: sensor id, field aliases, timestamp and the INSERT parameter tuple.
- `Client`: the lifecycle. These are specification functions on a `ClientState` snapshot, plus the class `MoistureClient`, whose methods update its fields in place and are proved to agree with those functions. It also holds `main`'s exit status.
- `Health`: thresholds, alert rules, `check_sensor_health`, `generate_summary_report` and `main`'s exit status.

## Model

| member | source | states |
|---|---|---|
| Text.Split | moisture_client.py:183-187 | `topic.split('/')` never returns an empty list |
| Text.SplitJoin | moisture_client.py:183 | joining the pieces of a split with the separator gives back the original text |
| Text.SplitPiecesFree | moisture_client.py:183 | no piece of a split contains the separator |
| Text.SplitCount | moisture_client.py:183-184 | a split has exactly one more piece than the text has separators, so `len(parts) >= 2` holds exactly when the topic contains a `/` |
| Text.SplitWhole | moisture_client.py:183-187 | a text without the separator splits into itself alone |
| Text.SplitHead | moisture_client.py:183-185 | a separator-free head followed by the separator is the first piece, and the rest splits on its own |
| Text.TrimStart | moisture_client.py:61 | `lstrip` removes exactly the leading whitespace and leaves a suffix that does not start with whitespace |
| Text.TrimEnd | moisture_client.py:61 | `rstrip` removes exactly the trailing whitespace and leaves a prefix that does not end with whitespace |
| Text.Strip | moisture_client.py:61-76 | `strip()`, as `lstrip()` then `rstrip()`; what it yields is stated by `Text.StripTrims` and `Text.StripNoSpace` (no contract of its own) |
| Text.StripTrims | moisture_client.py:61-76 | `strip()` leaves no whitespace at either end, never lengthens the text, and leaves text without outer whitespace unchanged |
| Text.ParseInt | moisture_client.py:61-76 | `int()` on text; what it accepts and yields is stated by `Text.ParseIntOfDigits`, `Text.ParseIntOfNegated`, `Text.ParseIntShowInt` and `Text.ParseIntThenFloat` (the function itself carries no contract) |
| Text.StripNoSpace | moisture_client.py:61 | text without whitespace is unchanged by `strip()` |
| Text.ParseIntOfDigits | moisture_client.py:61 | `int()` of a non-empty digit string is its decimal value |
| Text.ParseIntOfNegated | moisture_client.py:61 | `int("-" + digits)` is minus the value of the digits |
| Text.ParseIntShowInt | moisture_client.py:61 | `int(str(n)) == n` for every integer, negative ones included |
| Text.ParseFloat | scripts/health_monitor.py:52-57 | `float()` on text; its meaning is stated by `Text.ParseIntThenFloat`, `Text.ParseFloatPointDecimal` and `Text.ParseFloatNumeral` (the function itself carries no contract) |
| Text.UnsignedDecimalOfDigits | scripts/health_monitor.py:52-57 | the unsigned-decimal core of `float()`, which sees the text after stripping and after the sign, reads a digit string as its value |
| Text.ParseIntThenFloat | scripts/health_monitor.py:52-59 | every text `int()` accepts, `float()` accepts with the same value |
| Text.ParseFloatPointDecimal | scripts/health_monitor.py:52-57 | `float("<digits>.<digits>")` is the whole part plus the fraction over a power of ten |
| Text.ParseFloatNumeral | scripts/health_monitor.py:52-57 | `float()` of the numeral of n, a point and `0` is n |
| Text.PointZero | scripts/health_monitor.py:53 | a numeral followed by `.0` is that numeral, a point and the numeral of zero |
| PyValues.Get | moisture_client.py:199-205 | `dict.get` returns the stored value whenever the key is present, even a `null` one, and the default only when the key is absent |
| PyValues.Truthy | moisture_client.py:206 | Python truth testing of a decoded value; `Normalizer.ParseTimestampValue` and `Normalizer.TimestampFallsBackToNow` state its effect on the timestamp (no contract of its own) |
| PyValues.ToFloat | moisture_client.py:234 | `float()` keeps numbers, maps booleans to 1.0/0.0, parses text, and fails on `None`, lists and objects |
| PyValues.ToOptionalFloat | moisture_client.py:235-237 | `None` maps to `None`; any other value succeeds exactly when `float()` succeeds and then carries its value |
| Timestamps.Combine | moisture_client.py:211 | a parsed date and time is returned only when it is a real calendar date and time of day |
| Timestamps.Strptime | moisture_client.py:209-211 | whatever a layout accepts is a valid `datetime`; the two T layouts need exactly 19 or 20 characters with `T` (and `Z`), the space layout needs whitespace after the date |
| Timestamps.FormatsExclusive | moisture_client.py:209 | no text is accepted by two of the three layouts |
| Timestamps.FirstMatch | moisture_client.py:209-217 | the result is the first layout in list order that parses the text, every earlier layout having failed; `None` means all of them failed |
| Timestamps.FirstMatchUnique | moisture_client.py:209-217 | the first-match conditions admit exactly one answer, the recursive search's |
| Timestamps.ParseFirst | moisture_client.py:209-217 | the `for fmt ... break ... else` loop returns the first layout that parses, or `None` when none does |
| Timestamps.ParseDateText | moisture_client.py:209 | a zero-padded date renders to ten characters that parse back to the same year, month and day |
| Timestamps.ParseClockText | moisture_client.py:209 | a zero-padded time of day renders to eight characters that parse back to the same hour, minute and second |
| Timestamps.StrptimeRender | moisture_client.py:209-211 | a valid timestamp rendered in any of the three layouts parses back with that layout to the same instant |
| Timestamps.FirstMatchRender | moisture_client.py:209-214 | a timestamp rendered in layout i is found by the ordered search at position i with its own value |
| Config.IniGet | moisture_client.py:60-76 | `config.get(section, option, fallback=...)`: a missing section gives the fallback; otherwise the section's option, then the `[DEFAULT]` option, then the fallback |
| Config.Setting | moisture_client.py:60-76 | `os.getenv(name, config.get(section, option, fallback=default))`; its precedence is stated by `Config.EnvWins`, `Config.IniWinsOverDefault` and `Config.DefaultLast` (no contract of its own) |
| Config.EnvWins | moisture_client.py:60-76 | a set environment variable decides the setting whatever the INI file contains |
| Config.IniWinsOverDefault | moisture_client.py:60-76 | without the variable, an option present in its section decides the setting whatever the default |
| Config.DefaultLast | moisture_client.py:60-76 | with neither the variable nor the option in the file, the default applies |
| Config.IntSetting | moisture_client.py:61 | an integer setting succeeds exactly when `int()` accepts the resolved text, and otherwise names its variable in the error |
| Config.FloatSetting | scripts/health_monitor.py:52-57 | a float setting succeeds exactly when `float()` accepts the resolved text, and otherwise names its variable in the error |
| Config.IntOfNumeral | moisture_client.py:61 | a setting whose text is the decimal numeral of n resolves to n |
| Config.FloatOfNumeral | scripts/health_monitor.py:52-57 | a setting whose text is a numeral followed by `.0` resolves to that number as a float |
| Config.LoadClientConfig | moisture_client.py:50-76 | a missing file is FileNotFoundError before anything is read; on success every text setting is env > INI > default and every integer setting is `int()` of its resolved text; it fails exactly when one of the four integer settings does not parse, the error naming one of them |
| Config.PortNumerals | moisture_client.py:61-68 | the port defaults `"1883"` and `"3306"` are the numerals of those numbers |
| Config.ClientPortDefaults | moisture_client.py:61-68 | with nothing set, the broker port is 1883 and the database port 3306 |
| Config.ClientTimingDefaults | moisture_client.py:75-76 | with nothing set, the reconnect delay is 5 and the maximum runtime 300 |
| Config.ClientDefaults | moisture_client.py:60-76 | with no variable set and no option in the file, the client's settings are exactly the built-in defaults (broker localhost:1883, topic `moisture/+/data`, database `moisture_db` as root on localhost:3306, id `moisture_client`, delay 5, runtime 300) |
| Normalizer.SensorId | moisture_client.py:183-187 | with two or more topic pieces the id is the second; otherwise it is defined exactly when the payload is an object |
| Normalizer.SensorIdBetweenSlashes | moisture_client.py:183-185 | the id is the text between the first and second `/`, whatever follows |
| Normalizer.SensorIdAfterLastSlash | moisture_client.py:183-185 | with a single `/`, the id is everything after it |
| Normalizer.SensorIdWithoutSlash | moisture_client.py:186-187 | without a `/`, the id is the payload's `sensor_id` value when the key is present, else "unknown" |
| Normalizer.SensorIdExample | moisture_client.py:182-185 | `moisture/sensor_01/data` gives the id `sensor_01` |
| Normalizer.AliasesFirstPresent | moisture_client.py:199-205 | each field is taken from the first alias that is a key, even when its value is `null`; the default (0.0 for moisture, `None` for the rest) applies only when no alias is a key |
| Normalizer.SecondAliasIgnored | moisture_client.py:199-205 | once the first alias is a key, the second alias's value never matters |
| Normalizer.ParseTimestampValue | moisture_client.py:205-221 | a timestamp is found only in non-empty text and only as some layout's parse; text that yields nothing fails all three layouts |
| Normalizer.ResolveTimestamp | moisture_client.py:205-221 | the row's timestamp; `Normalizer.TimestampRoundTrip`, `Normalizer.TimestampFallsBackToNow` and `Normalizer.TimestampNotADate` state what it yields (no contract of its own) |
| Normalizer.TimestampRoundTrip | moisture_client.py:205-214 | a timestamp written in any accepted layout is stored as exactly that instant |
| Normalizer.TimestampFallsBackToNow | moisture_client.py:215-221 | an absent, empty or non-text value, or text no layout accepts, is stored as "now" |
| Normalizer.TimestampExample | moisture_client.py:205-214 | `"2025-10-28T10:30:00Z"` is stored as 2025-10-28 10:30:00 |
| Normalizer.ExampleText | moisture_client.py:209 | 2025-10-28 10:30:00 is valid and renders in the third layout as `2025-10-28T10:30:00Z` |
| Normalizer.ExampleDate | moisture_client.py:209 | that date renders as `2025-10-28` |
| Normalizer.ExampleClock | moisture_client.py:209 | that time renders as `10:30:00` |
| Normalizer.TimestampNotADate | moisture_client.py:215-217 | `"not-a-date"` is stored as "now" |
| Normalizer.StoreRow | moisture_client.py:195-247 | a row is produced exactly when the payload is an object, moisture converts with `float()` and each non-null optional field converts; the row carries the given id, the resolved timestamp, the converted values in column order with `None` exactly for `null` fields, and the raw payload |
| Normalizer.StoreSensorData | moisture_client.py:195-240 | computing the fields, the timestamp by the loop over the layouts, and the conversions one by one yields exactly `StoreRow` |
| Normalizer.TimestampNeverAborts | moisture_client.py:205-221 | whether a row is written never depends on the `timestamp` or `time` field |
| Normalizer.NullMoistureWritesNothing | moisture_client.py:199 | a present `null` moisture does not fall back to the default, so nothing is inserted |
| Normalizer.MissingMoistureIsZero | moisture_client.py:199 | a payload with neither moisture key is stored with moisture 0.0 |
| Normalizer.HandleMessage | moisture_client.py:167-193 | a payload that is not UTF-8 or not JSON yields no row; a row carries the raw text, the topic-derived id and the resolved timestamp, and is exactly `StoreRow`'s row for that id, document and text, so every column is `float()` of its aliased field; for an object payload a row exists exactly when storage succeeds |
| Client.ConnectDatabaseStep | moisture_client.py:105-122 | one connect call with the configured parameters; a raising connect keeps the old handle and returns False; otherwise the new handle replaces it and the result is True exactly when it reports connected |
| Client.CreateTablesStep | moisture_client.py:124-149 | one DDL call; the result says whether it succeeded (False stands for the re-raised Error) |
| Client.CredentialCalls | moisture_client.py:254-256 | `username_pw_set` is called, once and with the configured pair, exactly when both user name and password are non-empty |
| Client.ConnectMqttStep | moisture_client.py:249-269 | the client object is created with the configured id and kept, credentials follow the rule above, and connect uses the configured broker, port and keep-alive 60; the result is whether connect returned |
| Client.OnConnectStep | moisture_client.py:151-158 | subscribes to the configured topic exactly when `rc == 0`, and changes nothing otherwise |
| Client.ReachesCursor | moisture_client.py:167-230 | `_store_sensor_data` reaches `self.db_connection.cursor()`: the payload decoded to an object, the sensor id was found and a handle exists; `Client.OnMessageStep` consumes a handle answer exactly then (no contract of its own) |
| Client.OnMessageStep | moisture_client.py:167-245 | at most one INSERT per message, and one exactly when a database handle exists, the message yields a row and the handle accepts the statement, carrying that row; one answer of the handle is consumed exactly when `_store_sensor_data` reaches `cursor()`; nothing else changes |
| Client.SignalStep | moisture_client.py:100-103 | the handler clears `running` and changes nothing else |
| Client.CleanupCalls | moisture_client.py:321-332 | `loop_stop` and `disconnect` happen exactly when a client exists, `close` exactly when the database is to be closed |
| Client.CleanupStep | moisture_client.py:321-332 | `running` becomes False; the handles stay; the calls are exactly those of existing resources, the database being closed only when its handle reports connected |
| Client.Reconnects | moisture_client.py:298-304 | a pass reaches the reconnect: in time, and `is_connected()` says False; `Client.IterationStep` uses it for the extra `connect` (no contract of its own) |
| Client.ReconnectFails | moisture_client.py:303-307 | the reconnect `_connect_database` fails; `Client.IterationStep` and `Client.LoopReconnectExit` tie it to the ReconnectFailed exit (no contract of its own) |
| Client.IterationStep | moisture_client.py:296-309 | one pass reads the clock once; it exits with RuntimeExceeded exactly when more than `max_runtime` seconds (strictly) have passed, and with ReconnectFailed exactly when it was in time, `is_connected()` said False and the following `connect` raised or its handle reported disconnected; its only calls are that one `connect` when it reconnects and the `sleep(1)` when it gets that far; a successful connect replaces the handle; it uses no `is_connected()` answer when past the runtime, otherwise one, plus one more after a `connect` that returns; a signal exit clears `running`, no other exit changes it |
| Client.LoopFrom | moisture_client.py:294-309 | the `while self.running` loop from the top; how it ends is stated by `Client.LoopTrace`, `Client.LoopClockExit`, `Client.LoopReconnectExit`, `Client.LoopSignalExit`, `Client.LoopKeepsHandles` and `Client.SleepsBounded` (no contract of its own) |
| Client.Passes | moisture_client.py:296-309 | the sequence of states at the top of each pass starts with the loop's entry state |
| Client.LoopTrace | moisture_client.py:296-309 | every pass but the last ends without an exit and leads to the next; the last pass yields the loop's final state and exit |
| Client.LoopReconnectExit | moisture_client.py:302-307 | no pass before the last reaches a failing reconnect, and the loop ends with ReconnectFailed exactly when the last pass does, after one more `connect` |
| Client.LoopClockExit | moisture_client.py:296-300 | the loop reads the clock at least once, every reading but the last was within `max_runtime` of the start, and the exit is RuntimeExceeded exactly when the last one was not |
| Client.LoopSignalExit | moisture_client.py:296-309 | of the sleeps the loop performs only the last can be interrupted, exactly when the exit is Signalled; `running` is then false and otherwise still true |
| Client.LoopKeepsHandles | moisture_client.py:302-307 | the loop never drops the database handle and never touches the MQTT client |
| Client.LoopExitCharacterised | moisture_client.py:294-309 | the loop ends at the first clock reading past the runtime, or at the first pass whose reconnect fails, or after the first signalled sleep; earlier readings were within the runtime, earlier passes reconnected successfully or did not need to, and earlier sleeps were uninterrupted; the handles stay; `running` is false only after a signal |
| Client.SignalStopsLoop | moisture_client.py:100-103 | a signal during the next sleep ends the loop right after that sleep, unless it has already ended before sleeping |
| Client.SleepsBounded | moisture_client.py:296-309 | from any top-of-loop state the loop sleeps at most `Remaining` more times |
| Client.RunSpec | moisture_client.py:271-319 | `run` as a function of the world; its behaviour is stated by `Client.RunFailsFast`, `Client.FailedRunLog`, `Client.FailedRunNeverLoops`, `Client.RunCleansUp` and `Client.RunSleepsBounded` (no contract of its own) |
| Client.RunFailsFast | moisture_client.py:271-290 | `run` returns False exactly when the database connect fails or, after the tables, the broker connect fails |
| Client.FailedRunLog | moisture_client.py:271-290 | a run that does not return True makes exactly the calls of the startup steps up to the failing one, and leaves `running` alone |
| Client.StartupLogQuiet | moisture_client.py:275-286 | the startup calls never include the MQTT loop thread, a sleep or a close |
| Client.FailedRunNeverLoops | moisture_client.py:276-290 | a run that does not return True never starts the MQTT loop, never sleeps, never closes the database and leaves `running` as it was |
| Client.CleanupLastCall | moisture_client.py:321-331 | with both handles present, cleanup ends with `loop_stop` and `disconnect`, followed by `close` exactly when the handle reports connected |
| Client.RunEndsInCleanup | moisture_client.py:292-319 | a run that gets past startup returns True after cleaning up the loop's final state, and both handles are then present |
| Client.FailedStartupNotTrue | moisture_client.py:275-290 | a run whose startup fails does not return True |
| Client.RunCleansUp | moisture_client.py:292-331 | `run` returns True exactly when startup succeeded, whatever ended the loop; `running` is then False, and the log ends with `loop_stop` and `disconnect`, followed by `close` exactly when the handle reported connected at cleanup |
| Client.RunSleepsBounded | moisture_client.py:292-309 | a whole run sleeps at most `max_runtime` times, and never when it is not positive; both rest on the strictly increasing whole-second clock, under which the first check is at least a second after `start_time` |
| Client.MoistureClient.constructor | moisture_client.py:30-39 | a fresh client has no connections, is not running and has made no calls |
| Client.MoistureClient.ReadClock | moisture_client.py:292 | returns the next clock reading and consumes it |
| Client.MoistureClient.IsConnected | moisture_client.py:303 | returns the next `is_connected()` answer and consumes it |
| Client.MoistureClient.SignalHandler | moisture_client.py:100-103 | the new state is `SignalStep` of the old |
| Client.MoistureClient.ConnectDatabase | moisture_client.py:105-122 | the new state and result are `ConnectDatabaseStep` of the old state |
| Client.MoistureClient.CreateTables | moisture_client.py:124-149 | the new state and result are `CreateTablesStep` of the old state |
| Client.MoistureClient.ConnectMqtt | moisture_client.py:249-269 | the new state and result are `ConnectMqttStep` of the old state |
| Client.MoistureClient.OnConnect | moisture_client.py:151-158 | the new state is `OnConnectStep` of the old |
| Client.MoistureClient.OnMessage | moisture_client.py:167-247 | the new state is `OnMessageStep` of the old: the row comes from `Normalizer.StoreSensorData`, and one handle answer is consumed when `cursor()` is reached |
| Client.MoistureClient.Cleanup | moisture_client.py:321-332 | the new state is `CleanupStep` of the old |
| Client.MoistureClient.SupervisePass | moisture_client.py:297-309 | one pass of the loop body leaves the state and exit `IterationStep` prescribes |
| Client.MoistureClient.Supervise | moisture_client.py:294-309 | the `while self.running` loop leaves the state `LoopFrom` prescribes |
| Client.MoistureClient.Run | moisture_client.py:271-319 | the final state and outcome are `RunSpec` of the initial state |
| Client.RunMain | moisture_client.py:335-343 | the exit status is 0 or 1, and 0 exactly when the configuration loads and `run` returns True |
| Health.IniOf | scripts/health_monitor.py:39-42 | a missing file is read as an empty configuration, a present one as its contents |
| Health.LoadHealthConfig | scripts/health_monitor.py:37-59 | on success each setting is env > INI > default, numbers through `int()`/`float()`; it fails exactly when one numeric setting does not parse, naming one of them |
| Health.ThresholdFromEnvironment | scripts/health_monitor.py:52-59 | when all four threshold variables are set, the thresholds do not depend on the file |
| Health.HealthNumerals | scripts/health_monitor.py:46-59 | the numeric defaults are the numerals of 3306, 3600, 20, 80 and 10 |
| Health.MoistureLowDefault | scripts/health_monitor.py:52-53 | with nothing set, the low-moisture threshold is 20.0 |
| Health.MoistureHighDefault | scripts/health_monitor.py:54-55 | with nothing set, the high-moisture threshold is 80.0 |
| Health.BatteryLowDefault | scripts/health_monitor.py:56-57 | with nothing set, the low-battery threshold is 10.0 |
| Health.IntDefaults | scripts/health_monitor.py:46-59 | with nothing set, the offline threshold is 3600 and the database port 3306 |
| Health.HealthDefaults | scripts/health_monitor.py:37-59 | a missing file is no error: every setting takes its default, thresholds 20.0 / 80.0 / 10.0 / 3600 |
| Health.IsOffline | scripts/health_monitor.py:194 | the offline rule: no reading, or one more than the threshold old; `Health.AlertRules` ties it to the alert (no contract of its own) |
| Health.IsMoistureLow | scripts/health_monitor.py:201-202 | the low-moisture rule on a present value; `Health.AlertRules` ties it to the alert (no contract of its own) |
| Health.IsMoistureHigh | scripts/health_monitor.py:201-208 | the high-moisture rule, the `elif` after the low check; `Health.AlertRules` ties it to the alert (no contract of its own) |
| Health.IsBatteryLow | scripts/health_monitor.py:215 | the low-battery rule on a present value; `Health.AlertRules` ties it to the alert (no contract of its own) |
| Health.AlertsFor | scripts/health_monitor.py:193-220 | each sensor gets at most three alerts |
| Health.AlertOrder | scripts/health_monitor.py:193-220 | every alert carries its type's fixed severity (offline and battery high, moisture medium), and the alerts come in rule order: offline, then moisture, then battery, at most one each |
| Health.AlertRules | scripts/health_monitor.py:193-220 | offline exactly when there is no reading or it is more than the threshold old; moisture-low exactly when a moisture value is below the low threshold; moisture-high exactly when one is not below it but above the high threshold; battery-low exactly when a battery value is below its threshold; without moisture only high alerts arise |
| Health.CheckRow | scripts/health_monitor.py:193-220 | the rules, appending one by one, build exactly `AlertsFor` of the row |
| Health.AlertsExactly | scripts/health_monitor.py:193-220 | every alert of a row is one of the four, present exactly when its rule holds |
| Health.CheckSensorHealth | scripts/health_monitor.py:143-232 | one status per fetched row, in order, each with that row's alerts; an empty list when nothing was fetched |
| Health.CountSeverity | scripts/health_monitor.py:254-258 | a severity count never exceeds the number of alerts |
| Health.OfflineSensors | scripts/health_monitor.py:260-265 | the offline count never exceeds the number of sensors |
| Health.SeveritiesSplit | scripts/health_monitor.py:254-258 | every alert is counted as high or medium, never both, never neither |
| Health.TotalIsHighPlusMedium | scripts/health_monitor.py:249-258 | `total_alerts == high_severity_alerts + medium_severity_alerts` |
| Health.CountSeverityPositive | scripts/health_monitor.py:254-256 | a severity count is positive exactly when some alert has that severity |
| Health.HighAlertsPositive | scripts/health_monitor.py:250-256 | the high counter is positive exactly when some sensor has a high alert |
| Health.CountAlerts | scripts/health_monitor.py:254-258 | the inner loop counts exactly the high and the medium alerts, which together are all of them |
| Health.SummaryOf | scripts/health_monitor.py:234-269 | the counters a report adds up to; `Health.TotalIsHighPlusMedium`, `Health.HighAlertsPositive` and `Health.GenerateSummary` state their meaning (no contract of its own) |
| Health.GenerateSummary | scripts/health_monitor.py:234-269 | the loop's counters are the summary of the statuses, `total == high + medium`, and `offline + healthy` is the number of sensors, a sensor being offline exactly when it has an offline alert |
| Health.ExitCode | scripts/health_monitor.py:350-355 | the status is 1 exactly when the high counter is positive, otherwise 0 |
| Health.HighAlertMeans | scripts/health_monitor.py:193-220 | a row has a high alert exactly when it is offline or its battery is low |
| Health.PointwiseHigh | scripts/health_monitor.py:177-222 | for each fetched row, its status has a high alert exactly when the row is offline or low on battery |
| Health.HighVerdict | scripts/health_monitor.py:249-258 | over the fetched rows, the high counter is positive exactly when some row is offline or low on battery |
| Health.HealthMain | scripts/health_monitor.py:337-355 | exit 1 on a configuration error; otherwise 1 exactly when some fetched sensor is offline or low on battery, and 0 when nothing could be fetched; moisture never changes the status |

## Left out

- Logging, `_on_disconnect` (which only logs), `print_report`, `save_metrics` and the alert message texts: they are output only.
- Client.RunMain and Health.HealthMain assume that logging setup succeeds. In the source it can raise in both constructors (moisture_client.py:42, scripts/health_monitor.py:33):
  - `getattr(logging, log_level.upper())` raises AttributeError for an unknown LOG_LEVEL (moisture_client.py:90, scripts/health_monitor.py:65);
  - in the client, `os.makedirs('')` raises FileNotFoundError when LOG_FILE has no directory part (moisture_client.py:84-86), and `logging.FileHandler` can fail to open the file (moisture_client.py:93).
  Either program then exits with status 1, while the model can give 0 for the same settings. Likewise, a failure while writing the report or the metrics file in the health monitor is not modelled.
- PyValues.ToFloat, Text.ParseFloat and the threshold comparisons in Health.AlertsFor use Dafny's exact `real` where Python uses IEEE-754 doubles. Rounding is lost: `"29.99999999999999999"` is 30.0 as a double, so `< 30.0` is false in the source but true in the model. The OverflowError that `float()` raises for an integer beyond about 1e308 is not modelled either: the model gives the exact value.
- The SQL text itself: the `CREATE TABLE` statement, the INSERT text, the latest-reading and `check_database_health` queries, and `scripts/setup_database.py`. MySQL is an oracle; the insert is modelled by its parameter tuple.
- `check_database_health` and `is_active`, name, location and `last_reading` in the status dict: they do not affect alerts, counters or the exit status.
- A database error in the middle of the fetched rows: the query result is modelled as all rows or nothing.
- Concurrency: paho's network thread delivers `_on_message` and `_on_connect` asynchronously. Here they are methods called one at a time between the other operations, with `datetime.now()` passed in as a value.
- The clock: `time.time()` readings are whole seconds, given in order by the world, and strictly increasing (`ClockAdvances`). This is what makes the loop finite. It also means the first check at moisture_client.py:298 comes at least a second after `start_time` (moisture_client.py:292); with two equal readings the source would sleep once even at `max_runtime = 0`, and `max_runtime + 1` times in general, which the bound in Client.RunSleepsBounded does not cover. Wall-clock time and the length of a sleep are not modelled.
- Signals only arrive during `time.sleep(1)` in the loop. A signal during startup is lost anyway, because `run` sets `running` to True before entering the loop. `KeyboardInterrupt` cannot arise, because the handler replaces the default SIGINT behaviour.
- Exceptions inside the loop other than a failed reconnect (for example from `is_connected()`) are not modelled; neither is a raising `mqtt.Client(...)` constructor or `loop_start`.
- A table-creation Error escapes `run`. It is modelled as the `Raised` outcome, which `main` turns into exit status 1.
- `reconnect_delay` is read and parsed but the loop never uses it, so the model only carries it.
- Text: only ASCII whitespace and digits. `float()`'s `inf`, `nan` and digit-group underscores, `int()`'s underscores, and configparser's interpolation, key case-folding and value whitespace trimming are not modelled.
- Timestamps: each layout is a fixed-width pattern. `strptime`'s acceptance of one-digit fields is left out. Calendar validity and case-insensitive `T`/`Z` are modelled.
- JSON decoding and UTF-8 decoding are inputs: a message carries its decoded text and document, or `None` where decoding fails.

## Notes on the code

- `run` returns True, and `main` exits 0, after any loop exit, including a failed database reconnect. The model follows the code.
- Neither program validates its settings: there are no port-range checks and no retry budget. One failed reconnect ends the loop.
- The client refuses to start without its configuration file (FileNotFoundError, exit 1). The health monitor treats a missing file as empty and uses its defaults.
- `_connect_database` falls through and returns `None` when the new connection reports disconnected. The model treats this as False, as `run`'s `not` does.
- A sensor with only moisture or battery alerts counts as healthy in the summary. Only an offline alert makes a sensor offline.
