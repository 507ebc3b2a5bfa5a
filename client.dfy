/**
 * The lifecycle of `MoistureClient`: connecting to MySQL and to the MQTT
 * broker, the `while self.running` supervision loop, the signal handler, the
 * MQTT callbacks and `_cleanup`, and the exit code of `main`.
 *
 * The two libraries are replaced by a `World` of oracle answers, read in
 * order: successive `time.time()` readings, successive `is_connected()`
 * answers, successive outcomes of `mysql.connector.connect`, and so on. What
 * the client does to the libraries is recorded, in order, as a log of
 * `Call`s. Each operation is specified by a function on a value snapshot
 * (`ClientState`) of the client's fields; the class `MoistureClient` updates
 * those fields in place and is proved to agree with the functions.
 */
module Client {

  import opened Wrappers
  import opened Config
  import opened Timestamps
  import opened PyValues
  import opened Normalizer

  /** The connection object returned by the n-th call of `mysql.connector.connect`. */
  datatype DbHandle = DbHandle(attempt: nat)

  /** The object `mqtt.Client(client_id=...)` creates. */
  datatype MqttHandle = MqttHandle(clientId: string)

  /** A call the client makes into MySQL, paho-mqtt or `time`. */
  datatype Call =
    | DbConnect(host: string, port: int, database: string, user: string, password: string)
    | DbCreateTables
    | MqttCreate(clientId: string)
    | MqttCredentials(username: string, password: string)
    | MqttConnect(host: string, port: int, keepalive: int)
    | MqttLoopStart
    | MqttSubscribe(topic: string)
    | DbInsert(row: Row)
    | Sleep(seconds: int)
    | MqttLoopStop
    | MqttDisconnect
    | DbClose

  /** The oracle answers. Each stream is indexed by how many times it was consulted before. */
  datatype World = World(
    clock: nat -> int,           // time.time(), in whole seconds
    isConnected: nat -> bool,    // db_connection.is_connected()
    dbConnect: nat -> bool,      // mysql.connector.connect: true returns a connection, false raises Error
    tablesCreated: bool,         // the CREATE TABLE statement succeeds
    mqttConnect: bool,           // the broker connect returns rather than raising
    insertAccepted: nat -> bool, // the handle's cursor() and execute() succeed for the n-th INSERT attempt
    signalled: nat -> bool)      // SIGINT or SIGTERM arrives during the n-th time.sleep(1)

  /** Every reading of the clock is later than the one before. */
  ghost predicate ClockAdvances(w: World) {
    forall i: nat, j: nat :: i < j ==> w.clock(i) < w.clock(j)
  }

  /** How far each oracle stream has been consumed. */
  datatype Cursor = Cursor(clock: nat, probe: nat, connect: nat, sleep: nat, insert: nat)

  /** The client's mutable fields, and the log and cursors of its conversation with the world. */
  datatype ClientState = ClientState(
    running: bool,
    db: Option<DbHandle>,
    mqtt: Option<MqttHandle>,
    calls: seq<Call>,
    cursor: Cursor)

  /** The state `__init__` leaves: no connections, not running. */
  const Initial := ClientState(false, None, None, [], Cursor(0, 0, 0, 0, 0))

  /** A state and the truth value the operation returned. */
  datatype Stepped = Stepped(state: ClientState, ok: bool)

  // ---------------------------------------------------------------- single operations

  function DbConnectCall(s: ClientSettings): Call {
    DbConnect(s.dbHost, s.dbPort, s.dbName, s.dbUser, s.dbPassword)
  }

  /**
   * `_connect_database`: when `connect` raises, the old handle stays and the
   * result is False; otherwise the new handle replaces it and the result is
   * its `is_connected()` (the source returns None, which is falsy, when it
   * reports disconnected).
   */
  function ConnectDatabaseStep(w: World, s: ClientSettings, st: ClientState): (r: Stepped)
    ensures r.state.calls == st.calls + [DbConnectCall(s)]
    ensures r.state.running == st.running && r.state.mqtt == st.mqtt
    ensures r.state.cursor.connect == st.cursor.connect + 1
    ensures r.state.cursor.clock == st.cursor.clock && r.state.cursor.sleep == st.cursor.sleep
    ensures !w.dbConnect(st.cursor.connect) ==> !r.ok && r.state.db == st.db && r.state.cursor.probe == st.cursor.probe
    ensures w.dbConnect(st.cursor.connect) ==>
      r.state.db == Some(DbHandle(st.cursor.connect)) && r.state.cursor.probe == st.cursor.probe + 1
    ensures r.ok <==> w.dbConnect(st.cursor.connect) && w.isConnected(st.cursor.probe)
  {
    var c := st.cursor;
    var attempted := st.(calls := st.calls + [DbConnectCall(s)], cursor := c.(connect := c.connect + 1));
    if !w.dbConnect(c.connect) then Stepped(attempted, false)
    else
      var connected := attempted.(db := Some(DbHandle(c.connect)), cursor := attempted.cursor.(probe := c.probe + 1));
      Stepped(connected, w.isConnected(c.probe))
  }

  /** `_create_tables`: one statement; `ok` false stands for the Error it re-raises. */
  function CreateTablesStep(w: World, st: ClientState): (r: Stepped)
    ensures r.state == st.(calls := st.calls + [DbCreateTables])
    ensures r.ok == w.tablesCreated
  {
    Stepped(st.(calls := st.calls + [DbCreateTables]), w.tablesCreated)
  }

  /** `username_pw_set` is called only when both the user name and the password are non-empty. */
  function CredentialCalls(s: ClientSettings): (r: seq<Call>)
    ensures MqttCredentials(s.mqttUsername, s.mqttPassword) in r <==> s.mqttUsername != "" && s.mqttPassword != ""
    ensures forall c :: c in r ==> c == MqttCredentials(s.mqttUsername, s.mqttPassword)
    ensures |r| <= 1
  {
    if s.mqttUsername != "" && s.mqttPassword != "" then [MqttCredentials(s.mqttUsername, s.mqttPassword)] else []
  }

  /**
   * `_connect_mqtt`: the client object is kept whether or not the connect
   * succeeds; the connect uses the configured broker and port and a
   * keep-alive of 60 seconds.
   */
  function ConnectMqttStep(w: World, s: ClientSettings, st: ClientState): (r: Stepped)
    ensures r.state.mqtt == Some(MqttHandle(s.clientId))
    ensures r.state.calls == st.calls + [MqttCreate(s.clientId)] + CredentialCalls(s) + [MqttConnect(s.mqttBroker, s.mqttPort, 60)]
    ensures r.state.running == st.running && r.state.db == st.db && r.state.cursor == st.cursor
    ensures r.ok == w.mqttConnect
  {
    var calls := st.calls + [MqttCreate(s.clientId)] + CredentialCalls(s) + [MqttConnect(s.mqttBroker, s.mqttPort, 60)];
    Stepped(st.(mqtt := Some(MqttHandle(s.clientId)), calls := calls), w.mqttConnect)
  }

  /** `_on_connect`: subscribe to the configured topic exactly when the return code is 0. */
  function OnConnectStep(s: ClientSettings, st: ClientState, rc: int): (r: ClientState)
    ensures rc == 0 ==> r == st.(calls := st.calls + [MqttSubscribe(s.mqttTopic)])
    ensures rc != 0 ==> r == st
  {
    if rc == 0 then st.(calls := st.calls + [MqttSubscribe(s.mqttTopic)]) else st
  }

  /**
   * `_store_sensor_data` gets as far as `self.db_connection.cursor()`: the
   * payload decoded to an object, the sensor id was found and a handle
   * exists (on `None` the `.cursor()` call raises AttributeError, which is
   * caught).
   */
  predicate ReachesCursor(st: ClientState, msg: Message) {
    && st.db.Some? && msg.text.Some? && msg.document.Some?
    && SensorId(msg.topic, msg.document.value).Some? && msg.document.value.JObject?
  }

  /**
   * `_on_message`: at most one INSERT, and one exactly when the message
   * yields a row, a database handle exists and that handle accepts the
   * statement; a refused `cursor()` or `execute()` raises an Error, which
   * is caught. Each attempt that reaches `cursor()` consumes one answer.
   */
  function OnMessageStep(w: World, st: ClientState, msg: Message, now: DateTime): (r: ClientState)
    ensures r.running == st.running && r.db == st.db && r.mqtt == st.mqtt
    ensures r.cursor == st.cursor.(insert := st.cursor.insert + (if ReachesCursor(st, msg) then 1 else 0))
    ensures |st.calls| <= |r.calls| <= |st.calls| + 1 && r.calls[..|st.calls|] == st.calls
    ensures |r.calls| == |st.calls| + 1 <==>
      st.db.Some? && HandleMessage(msg, now).Some? && w.insertAccepted(st.cursor.insert)
    ensures |r.calls| == |st.calls| + 1 ==> r.calls[|st.calls|] == DbInsert(HandleMessage(msg, now).value)
  {
    if !ReachesCursor(st, msg) then st
    else
      var attempted := st.(cursor := st.cursor.(insert := st.cursor.insert + 1));
      match HandleMessage(msg, now)
      case Some(row) => if w.insertAccepted(st.cursor.insert) then attempted.(calls := st.calls + [DbInsert(row)]) else attempted
      case None => attempted
  }

  /** `_running := False` */
  function SignalStep(st: ClientState): (r: ClientState)
    ensures !r.running
    ensures r == st.(running := false)
  {
    st.(running := false)
  }

  /** The calls `_cleanup` makes: loop_stop and disconnect if a client exists, then close if the handle reports connected. */
  function CleanupCalls(hasMqtt: bool, closeDb: bool): (r: seq<Call>)
    ensures MqttLoopStop in r <==> hasMqtt
    ensures MqttDisconnect in r <==> hasMqtt
    ensures DbClose in r <==> closeDb
    ensures |r| == (if hasMqtt then 2 else 0) + (if closeDb then 1 else 0)
  {
    (if hasMqtt then [MqttLoopStop, MqttDisconnect] else []) + (if closeDb then [DbClose] else [])
  }

  /**
   * `_cleanup`: `running` becomes False; only the resources that exist are
   * released, and the database only when it still reports connected (its
   * `is_connected()` is asked only when a handle exists). The handles
   * themselves are not cleared.
   */
  function CleanupStep(w: World, st: ClientState): (r: ClientState)
    ensures !r.running && r.db == st.db && r.mqtt == st.mqtt
    ensures r.calls == st.calls + CleanupCalls(st.mqtt.Some?, st.db.Some? && w.isConnected(st.cursor.probe))
    ensures r.cursor == st.cursor.(probe := st.cursor.probe + (if st.db.Some? then 1 else 0))
  {
    var stopped := st.(running := false);
    if st.db.None? then stopped.(calls := st.calls + CleanupCalls(st.mqtt.Some?, false))
    else
      var alive := w.isConnected(st.cursor.probe);
      stopped.(calls := st.calls + CleanupCalls(st.mqtt.Some?, alive), cursor := st.cursor.(probe := st.cursor.probe + 1))
  }

  // ---------------------------------------------------------------- the loop

  /** Why the supervision loop ended. */
  datatype Exit = RuntimeExceeded | ReconnectFailed | Signalled

  datatype Iterated = Iterated(state: ClientState, exit: Option<Exit>)

  /** A pass reaches the reconnect: its clock reading is within `max_runtime` and `is_connected()` says False. */
  predicate Reconnects(w: World, s: ClientSettings, startTime: int, st: ClientState) {
    w.clock(st.cursor.clock) - startTime <= s.maxRuntime && !w.isConnected(st.cursor.probe)
  }

  /** ... and `_connect_database` then fails: `connect` raises, or the new handle reports disconnected. */
  predicate ReconnectFails(w: World, s: ClientSettings, startTime: int, st: ClientState) {
    Reconnects(w, s, startTime, st) && !(w.dbConnect(st.cursor.connect) && w.isConnected(st.cursor.probe + 1))
  }

  /**
   * One pass of the loop body: read the clock and leave when more than
   * `max_runtime` seconds have gone by; ask `is_connected()` and, on False,
   * reconnect, leaving when that fails; otherwise sleep one second, during
   * which a signal clears `running`.
   */
  function IterationStep(w: World, s: ClientSettings, startTime: int, st: ClientState): (r: Iterated)
    ensures r.state.cursor.clock == st.cursor.clock + 1
    ensures r.exit == Some(RuntimeExceeded) <==> w.clock(st.cursor.clock) - startTime > s.maxRuntime
    ensures r.exit == Some(ReconnectFailed) <==> ReconnectFails(w, s, startTime, st)
    ensures r.state.calls == st.calls
      + (if Reconnects(w, s, startTime, st) then [DbConnectCall(s)] else [])
      + (if r.exit.None? || r.exit == Some(Signalled) then [Sleep(1)] else [])
    ensures r.state.cursor.connect == st.cursor.connect + (if Reconnects(w, s, startTime, st) then 1 else 0)
    ensures r.state.cursor.probe == st.cursor.probe
      + (if w.clock(st.cursor.clock) - startTime > s.maxRuntime then 0 else 1)
      + (if Reconnects(w, s, startTime, st) && w.dbConnect(st.cursor.connect) then 1 else 0)
    ensures r.state.db == (if Reconnects(w, s, startTime, st) && w.dbConnect(st.cursor.connect) then Some(DbHandle(st.cursor.connect)) else st.db)
    ensures r.exit.None? ==> r.state.running == st.running
    ensures r.exit == Some(Signalled) ==> !r.state.running
    ensures r.exit != Some(Signalled) ==> r.state.running == st.running
    ensures st.db.Some? ==> r.state.db.Some?
    ensures r.state.mqtt == st.mqtt
    ensures r.state.cursor.sleep == st.cursor.sleep + (if r.exit.None? || r.exit == Some(Signalled) then 1 else 0)
    ensures r.exit == Some(Signalled) ==> w.signalled(st.cursor.sleep)
    ensures r.exit.None? ==> !w.signalled(st.cursor.sleep)
  {
    var c := st.cursor;
    var read := st.(cursor := c.(clock := c.clock + 1));
    if w.clock(c.clock) - startTime > s.maxRuntime then Iterated(read, Some(RuntimeExceeded))
    else
      var probed := read.(cursor := read.cursor.(probe := c.probe + 1));
      var checked := if w.isConnected(c.probe) then Stepped(probed, true) else ConnectDatabaseStep(w, s, probed);
      if !checked.ok then Iterated(checked.state, Some(ReconnectFailed))
      else
        var at := checked.state;
        var slept := at.(calls := at.calls + [Sleep(1)], cursor := at.cursor.(sleep := at.cursor.sleep + 1));
        if w.signalled(at.cursor.sleep) then Iterated(SignalStep(slept), Some(Signalled))
        else Iterated(slept, None)
  }

  /** How many more passes the clock allows, at most, before the runtime check fires. */
  function Remaining(w: World, s: ClientSettings, startTime: int, read: nat): nat {
    if w.clock(read) - startTime > s.maxRuntime then 0 else startTime + s.maxRuntime - w.clock(read) + 1
  }

  datatype LoopEnd = LoopEnd(state: ClientState, exit: Exit)

  /** The `while self.running` loop, from a state at the top of the loop with `running` true. */
  function LoopFrom(w: World, s: ClientSettings, startTime: int, st: ClientState): (r: LoopEnd)
    requires ClockAdvances(w)
    decreases Remaining(w, s, startTime, st.cursor.clock)
  {
    var step := IterationStep(w, s, startTime, st);
    if step.exit.Some? then LoopEnd(step.state, step.exit.value)
    else
      assert w.clock(st.cursor.clock) < w.clock(st.cursor.clock + 1);
      LoopFrom(w, s, startTime, step.state)
  }

  /** The states at the top of each pass of the loop, the first one included. */
  function Passes(w: World, s: ClientSettings, startTime: int, st: ClientState): (r: seq<ClientState>)
    requires ClockAdvances(w)
    ensures |r| >= 1 && r[0] == st
    decreases Remaining(w, s, startTime, st.cursor.clock)
  {
    var step := IterationStep(w, s, startTime, st);
    if step.exit.Some? then [st]
    else
      assert w.clock(st.cursor.clock) < w.clock(st.cursor.clock + 1);
      [st] + Passes(w, s, startTime, step.state)
  }

  /**
   * The loop as a trace: every pass but the last ends without an exit and
   * leads to the next, and the last pass yields the loop's final state and
   * exit.
   */
  lemma {:induction false} LoopTrace(w: World, s: ClientSettings, startTime: int, st: ClientState)
    requires ClockAdvances(w)
    ensures var p, r := Passes(w, s, startTime, st), LoopFrom(w, s, startTime, st);
      && (forall i :: 0 <= i < |p| - 1 ==> IterationStep(w, s, startTime, p[i]) == Iterated(p[i + 1], None))
      && IterationStep(w, s, startTime, p[|p| - 1]) == Iterated(r.state, Some(r.exit))
    decreases Remaining(w, s, startTime, st.cursor.clock)
  {
    var step := IterationStep(w, s, startTime, st);
    if step.exit.None? {
      assert w.clock(st.cursor.clock) < w.clock(st.cursor.clock + 1);
      LoopTrace(w, s, startTime, step.state);
      var p, q := Passes(w, s, startTime, st), Passes(w, s, startTime, step.state);
      assert p == [st] + q;
      forall i | 0 <= i < |p| - 1
        ensures IterationStep(w, s, startTime, p[i]) == Iterated(p[i + 1], None)
      {
        if i > 0 { assert p[i] == q[i - 1] && p[i + 1] == q[i]; }
      }
    }
  }

  /**
   * The reconnect exit: no pass but the last reaches a failing reconnect,
   * and the loop ends with ReconnectFailed exactly when the last one does,
   * after asking `connect` once more.
   */
  lemma LoopReconnectExit(w: World, s: ClientSettings, startTime: int, st: ClientState)
    requires ClockAdvances(w)
    ensures var p, r := Passes(w, s, startTime, st), LoopFrom(w, s, startTime, st);
      && (forall i :: 0 <= i < |p| - 1 ==> !ReconnectFails(w, s, startTime, p[i]))
      && (r.exit == ReconnectFailed <==> ReconnectFails(w, s, startTime, p[|p| - 1]))
      && (r.exit == ReconnectFailed ==> r.state.cursor.connect == p[|p| - 1].cursor.connect + 1)
  {
    LoopTrace(w, s, startTime, st);
    var p := Passes(w, s, startTime, st);
    forall i | 0 <= i < |p| - 1
      ensures !ReconnectFails(w, s, startTime, p[i])
    {
      assert IterationStep(w, s, startTime, p[i]) == Iterated(p[i + 1], None);
    }
  }

  /**
   * The runtime exit: the loop reads the clock at least once, every reading
   * but the last was within `max_runtime` of the start, and the exit is
   * RuntimeExceeded exactly when the last one was not.
   */
  lemma {:induction false} LoopClockExit(w: World, s: ClientSettings, startTime: int, st: ClientState)
    requires ClockAdvances(w)
    ensures var r := LoopFrom(w, s, startTime, st);
      && st.cursor.clock < r.state.cursor.clock
      && (forall k :: st.cursor.clock <= k < r.state.cursor.clock - 1 ==> w.clock(k) - startTime <= s.maxRuntime)
      && (r.exit == RuntimeExceeded <==> w.clock(r.state.cursor.clock - 1) - startTime > s.maxRuntime)
    decreases Remaining(w, s, startTime, st.cursor.clock)
  {
    var step := IterationStep(w, s, startTime, st);
    if step.exit.None? {
      assert w.clock(st.cursor.clock) < w.clock(st.cursor.clock + 1);
      LoopClockExit(w, s, startTime, step.state);
    }
  }

  /**
   * The signal exit: of the sleeps the loop performs, only the last can be
   * interrupted, and it is exactly when the exit is Signalled; `running`
   * is then false and otherwise still true.
   */
  lemma {:induction false} LoopSignalExit(w: World, s: ClientSettings, startTime: int, st: ClientState)
    requires ClockAdvances(w) && st.running
    ensures var r := LoopFrom(w, s, startTime, st);
      && st.cursor.sleep <= r.state.cursor.sleep
      && (forall k :: st.cursor.sleep <= k < r.state.cursor.sleep ==> (w.signalled(k) <==> r.exit == Signalled && k == r.state.cursor.sleep - 1))
      && (r.exit == Signalled ==> r.state.cursor.sleep > st.cursor.sleep)
      && (r.state.running <==> r.exit != Signalled)
    decreases Remaining(w, s, startTime, st.cursor.clock)
  {
    var step := IterationStep(w, s, startTime, st);
    if step.exit.None? {
      assert w.clock(st.cursor.clock) < w.clock(st.cursor.clock + 1);
      LoopSignalExit(w, s, startTime, step.state);
    }
  }

  /** The loop never drops the database handle and never touches the MQTT client. */
  lemma {:induction false} LoopKeepsHandles(w: World, s: ClientSettings, startTime: int, st: ClientState)
    requires ClockAdvances(w) && st.db.Some?
    ensures LoopFrom(w, s, startTime, st).state.db.Some?
    ensures LoopFrom(w, s, startTime, st).state.mqtt == st.mqtt
    decreases Remaining(w, s, startTime, st.cursor.clock)
  {
    var step := IterationStep(w, s, startTime, st);
    if step.exit.None? {
      assert w.clock(st.cursor.clock) < w.clock(st.cursor.clock + 1);
      LoopKeepsHandles(w, s, startTime, step.state);
    }
  }

  /**
   * How the loop ends: at the first clock reading more than `max_runtime`
   * after the start, at the first pass whose reconnect fails, or after the
   * first sleep a signal interrupts, whichever comes first; the database
   * handle never becomes `None`; `running` is false only after a signal.
   */
  lemma LoopExitCharacterised(w: World, s: ClientSettings, startTime: int, st: ClientState)
    requires ClockAdvances(w) && st.running && st.db.Some?
    ensures var r := LoopFrom(w, s, startTime, st);
      && st.cursor.clock < r.state.cursor.clock
      && (forall k :: st.cursor.clock <= k < r.state.cursor.clock - 1 ==> w.clock(k) - startTime <= s.maxRuntime)
      && (r.exit == RuntimeExceeded <==> w.clock(r.state.cursor.clock - 1) - startTime > s.maxRuntime)
      && st.cursor.sleep <= r.state.cursor.sleep
      && (forall k :: st.cursor.sleep <= k < r.state.cursor.sleep ==> (w.signalled(k) <==> r.exit == Signalled && k == r.state.cursor.sleep - 1))
      && (r.exit == Signalled ==> r.state.cursor.sleep > st.cursor.sleep)
      && (forall i :: 0 <= i < |Passes(w, s, startTime, st)| - 1 ==> !ReconnectFails(w, s, startTime, Passes(w, s, startTime, st)[i]))
      && (r.exit == ReconnectFailed <==> ReconnectFails(w, s, startTime, Passes(w, s, startTime, st)[|Passes(w, s, startTime, st)| - 1]))
      && r.state.db.Some?
      && r.state.mqtt == st.mqtt
      && (r.state.running <==> r.exit != Signalled)
  {
    LoopReconnectExit(w, s, startTime, st);
    LoopClockExit(w, s, startTime, st);
    LoopSignalExit(w, s, startTime, st);
    LoopKeepsHandles(w, s, startTime, st);
  }

  /** A signal during a sleep always ends the loop right after that sleep. */
  lemma SignalStopsLoop(w: World, s: ClientSettings, startTime: int, st: ClientState)
    requires ClockAdvances(w) && st.running && st.db.Some?
    requires w.signalled(st.cursor.sleep)
    ensures LoopFrom(w, s, startTime, st).exit != Signalled ==> LoopFrom(w, s, startTime, st).state.cursor.sleep == st.cursor.sleep
    ensures LoopFrom(w, s, startTime, st).exit == Signalled ==> LoopFrom(w, s, startTime, st).state.cursor.sleep == st.cursor.sleep + 1
  {
    LoopExitCharacterised(w, s, startTime, st);
  }

  /**
   * The runtime bound: from any state at the top of the loop, the loop
   * sleeps at most `Remaining` more times, because each pass that sleeps
   * is followed by a later clock reading.
   */
  lemma {:induction false} SleepsBounded(w: World, s: ClientSettings, startTime: int, st: ClientState)
    requires ClockAdvances(w)
    ensures LoopFrom(w, s, startTime, st).state.cursor.sleep <= st.cursor.sleep + Remaining(w, s, startTime, st.cursor.clock)
    decreases Remaining(w, s, startTime, st.cursor.clock)
  {
    var step := IterationStep(w, s, startTime, st);
    if step.exit.None? {
      assert w.clock(st.cursor.clock) < w.clock(st.cursor.clock + 1);
      SleepsBounded(w, s, startTime, step.state);
    }
  }

  // ---------------------------------------------------------------- run and main

  /** What `run` did: returned a truth value, or let the table-creation Error escape. */
  datatype RunOutcome = Returned(success: bool) | Raised

  datatype RunEnd = RunEnd(state: ClientState, outcome: RunOutcome)

  /** The state `run` has on entering the loop: loop thread started, `running` set, start time read. */
  function LoopEntry(w: World, st: ClientState): ClientState {
    st.(calls := st.calls + [MqttLoopStart], running := true, cursor := st.cursor.(clock := st.cursor.clock + 1))
  }

  /**
   * `run`: the three startup steps, each failure ending the run before the
   * loop and without cleanup, then the loop and `_cleanup` (in `finally`),
   * after which the result is True however the loop ended.
   */
  function RunSpec(w: World, s: ClientSettings, st: ClientState): (r: RunEnd)
    requires ClockAdvances(w)
  {
    var db := ConnectDatabaseStep(w, s, st);
    if !db.ok then RunEnd(db.state, Returned(false))
    else
      var tables := CreateTablesStep(w, db.state);
      if !tables.ok then RunEnd(tables.state, Raised)
      else
        var mqtt := ConnectMqttStep(w, s, tables.state);
        if !mqtt.ok then RunEnd(mqtt.state, Returned(false))
        else
          var entry := LoopEntry(w, mqtt.state);
          var loop := LoopFrom(w, s, w.clock(mqtt.state.cursor.clock), entry);
          RunEnd(CleanupStep(w, loop.state), Returned(true))
  }

  /** The calls made during a run, after those already in the log. */
  function RunCalls(w: World, s: ClientSettings, st: ClientState): seq<Call>
    requires ClockAdvances(w)
  {
    var r := RunSpec(w, s, st).state.calls;
    if |st.calls| <= |r| then r[|st.calls|..] else []
  }

  /** Fail fast: `run` returns False exactly when the database connect or the broker connect fails. */
  lemma RunFailsFast(w: World, s: ClientSettings, st: ClientState)
    requires ClockAdvances(w)
    ensures RunSpec(w, s, st).outcome == Returned(false) <==>
      !ConnectDatabaseStep(w, s, st).ok || (w.tablesCreated && !w.mqttConnect)
  {
    var db := ConnectDatabaseStep(w, s, st);
    if db.ok && w.tablesCreated && w.mqttConnect {
      var tables := CreateTablesStep(w, db.state);
      var mqtt := ConnectMqttStep(w, s, tables.state);
      assert RunSpec(w, s, st).outcome == Returned(true);
    }
  }

  /** The calls of a run that ends during startup: those of the steps up to the one that failed. */
  function StartupLog(w: World, s: ClientSettings, st: ClientState): seq<Call> {
    if !ConnectDatabaseStep(w, s, st).ok then [DbConnectCall(s)]
    else if !w.tablesCreated then [DbConnectCall(s), DbCreateTables]
    else [DbConnectCall(s), DbCreateTables, MqttCreate(s.clientId)] + CredentialCalls(s) + [MqttConnect(s.mqttBroker, s.mqttPort, 60)]
  }

  /** A run that does not return True makes exactly the startup calls and leaves `running` alone. */
  lemma FailedRunLog(w: World, s: ClientSettings, st: ClientState)
    requires ClockAdvances(w)
    requires RunSpec(w, s, st).outcome != Returned(true)
    ensures RunSpec(w, s, st).state.running == st.running
    ensures RunCalls(w, s, st) == StartupLog(w, s, st)
  {
    assert RunSpec(w, s, st).state.calls == st.calls + StartupLog(w, s, st);
  }

  /**
   * A run that does not return True never starts the MQTT loop, never
   * sleeps, never closes the database and leaves `running` as it was.
   */
  lemma FailedRunNeverLoops(w: World, s: ClientSettings, st: ClientState)
    requires ClockAdvances(w)
    requires RunSpec(w, s, st).outcome != Returned(true)
    ensures RunSpec(w, s, st).state.running == st.running
    ensures MqttLoopStart !in RunCalls(w, s, st)
    ensures Sleep(1) !in RunCalls(w, s, st)
    ensures DbClose !in RunCalls(w, s, st)
  {
    FailedRunLog(w, s, st);
    StartupLogQuiet(w, s, st);
  }

  /** The startup calls never include the loop thread, a sleep or a close. */
  lemma StartupLogQuiet(w: World, s: ClientSettings, st: ClientState)
    ensures MqttLoopStart !in StartupLog(w, s, st)
    ensures Sleep(1) !in StartupLog(w, s, st)
    ensures DbClose !in StartupLog(w, s, st)
  {
    var creds := CredentialCalls(s);
    assert forall c :: c in creds ==> c.MqttCredentials?;
  }

  /** With both handles present, cleanup's last call is `close` exactly when the handle reports connected. */
  lemma CleanupLastCall(w: World, st: ClientState)
    requires st.db.Some? && st.mqtt.Some?
    ensures var c := CleanupStep(w, st);
      && |c.calls| >= 2
      && (c.calls[|c.calls| - 1] == DbClose <==> w.isConnected(c.cursor.probe - 1))
      && (var n := |c.calls| - (if w.isConnected(c.cursor.probe - 1) then 3 else 2);
          0 <= n && c.calls[n..n + 2] == [MqttLoopStop, MqttDisconnect])
  {
    var c := CleanupStep(w, st);
    if w.isConnected(st.cursor.probe) {
      assert c.calls == st.calls + [MqttLoopStop, MqttDisconnect, DbClose];
    } else {
      assert c.calls == st.calls + [MqttLoopStop, MqttDisconnect];
    }
  }

  /**
   * After a run that got past startup: the result is True whatever ended
   * the loop, `running` is False, the MQTT loop was stopped and the client
   * disconnected, and the database was closed exactly when its handle
   * reported connected at cleanup.
   */
  lemma RunCleansUp(w: World, s: ClientSettings, st: ClientState)
    requires ClockAdvances(w)
    ensures var r := RunSpec(w, s, st);
      r.outcome == Returned(true) <==> ConnectDatabaseStep(w, s, st).ok && w.tablesCreated && w.mqttConnect
    ensures var r := RunSpec(w, s, st);
      r.outcome == Returned(true) ==>
        && !r.state.running
        && r.state.db.Some? && r.state.mqtt.Some?
        && |r.state.calls| >= 2
        && (r.state.calls[|r.state.calls| - 1] == DbClose <==> w.isConnected(r.state.cursor.probe - 1))
        && (var n := |r.state.calls| - (if w.isConnected(r.state.cursor.probe - 1) then 3 else 2);
            0 <= n && r.state.calls[n..n + 2] == [MqttLoopStop, MqttDisconnect])
  {
    if ConnectDatabaseStep(w, s, st).ok && w.tablesCreated && w.mqttConnect {
      RunEndsInCleanup(w, s, st);
      CleanupLastCall(w, RunLoopState(w, s, st));
    } else {
      FailedStartupNotTrue(w, s, st);
    }
  }

  /** A run whose startup fails does not return True. */
  lemma FailedStartupNotTrue(w: World, s: ClientSettings, st: ClientState)
    requires ClockAdvances(w)
    requires !(ConnectDatabaseStep(w, s, st).ok && w.tablesCreated && w.mqttConnect)
    ensures RunSpec(w, s, st).outcome != Returned(true)
  {
  }

  /** The state the loop of a run that got past startup ends in. */
  function RunLoopState(w: World, s: ClientSettings, st: ClientState): ClientState
    requires ClockAdvances(w)
  {
    var db := ConnectDatabaseStep(w, s, st);
    var mqtt := ConnectMqttStep(w, s, CreateTablesStep(w, db.state).state);
    LoopFrom(w, s, w.clock(mqtt.state.cursor.clock), LoopEntry(w, mqtt.state)).state
  }

  /** A run that gets past startup returns True after cleaning up the loop's final state, in which both handles are present. */
  lemma RunEndsInCleanup(w: World, s: ClientSettings, st: ClientState)
    requires ClockAdvances(w)
    requires ConnectDatabaseStep(w, s, st).ok && w.tablesCreated && w.mqttConnect
    ensures RunSpec(w, s, st) == RunEnd(CleanupStep(w, RunLoopState(w, s, st)), Returned(true))
    ensures RunLoopState(w, s, st).db.Some? && RunLoopState(w, s, st).mqtt.Some?
  {
    var db := ConnectDatabaseStep(w, s, st);
    var mqtt := ConnectMqttStep(w, s, CreateTablesStep(w, db.state).state);
    LoopKeepsHandles(w, s, w.clock(mqtt.state.cursor.clock), LoopEntry(w, mqtt.state));
  }

  /**
   * MAX_RUNTIME bounds the run: a run sleeps at most `max_runtime` times (and
   * not at all when it is zero or negative), because every pass but the last
   * reads a clock at least one second later than the one before.
   */
  lemma {:induction false} RunSleepsBounded(w: World, s: ClientSettings, st: ClientState)
    requires ClockAdvances(w)
    ensures var r := RunSpec(w, s, st);
      r.state.cursor.sleep <= st.cursor.sleep + (if s.maxRuntime > 0 then s.maxRuntime else 0)
  {
    var db := ConnectDatabaseStep(w, s, st);
    if db.ok && w.tablesCreated && w.mqttConnect {
      var tables := CreateTablesStep(w, db.state);
      var mqtt := ConnectMqttStep(w, s, tables.state);
      var entry := LoopEntry(w, mqtt.state);
      var t0 := w.clock(mqtt.state.cursor.clock);
      assert t0 < w.clock(entry.cursor.clock);
      SleepsBounded(w, s, t0, entry);
    }
  }

  // ---------------------------------------------------------------- the client object

  class MoistureClient {
    const settings: ClientSettings
    const world: World
    var running: bool
    var dbConnection: Option<DbHandle>
    var mqttClient: Option<MqttHandle>
    var calls: seq<Call>
    var cursor: Cursor

    function Current(): ClientState
      reads this
    {
      ClientState(running, dbConnection, mqttClient, calls, cursor)
    }

    constructor (settings: ClientSettings, world: World)
      ensures this.settings == settings && this.world == world
      ensures Current() == Initial
    {
      this.settings := settings;
      this.world := world;
      running := false;
      dbConnection := None;
      mqttClient := None;
      calls := [];
      cursor := Cursor(0, 0, 0, 0, 0);
    }

    /** `time.time()` */
    method ReadClock() returns (t: int)
      modifies this
      ensures t == world.clock(old(cursor.clock))
      ensures Current() == old(Current()).(cursor := old(cursor).(clock := old(cursor.clock) + 1))
    {
      t := world.clock(cursor.clock);
      cursor := cursor.(clock := cursor.clock + 1);
    }

    /** `self.db_connection.is_connected()` */
    method IsConnected() returns (alive: bool)
      modifies this
      ensures alive == world.isConnected(old(cursor.probe))
      ensures Current() == old(Current()).(cursor := old(cursor).(probe := old(cursor.probe) + 1))
    {
      alive := world.isConnected(cursor.probe);
      cursor := cursor.(probe := cursor.probe + 1);
    }

    method SignalHandler()
      modifies this
      ensures Current() == SignalStep(old(Current()))
    {
      running := false;
    }

    method ConnectDatabase() returns (ok: bool)
      modifies this
      ensures Stepped(Current(), ok) == ConnectDatabaseStep(world, settings, old(Current()))
    {
      calls := calls + [DbConnectCall(settings)];
      var attempt := cursor.connect;
      cursor := cursor.(connect := attempt + 1);
      if !world.dbConnect(attempt) {
        return false;
      }
      dbConnection := Some(DbHandle(attempt));
      ok := IsConnected();
    }

    method CreateTables() returns (ok: bool)
      modifies this
      ensures Stepped(Current(), ok) == CreateTablesStep(world, old(Current()))
    {
      calls := calls + [DbCreateTables];
      ok := world.tablesCreated;
    }

    method ConnectMqtt() returns (ok: bool)
      modifies this
      ensures Stepped(Current(), ok) == ConnectMqttStep(world, settings, old(Current()))
    {
      mqttClient := Some(MqttHandle(settings.clientId));
      calls := calls + [MqttCreate(settings.clientId)];
      if settings.mqttUsername != "" && settings.mqttPassword != "" {
        calls := calls + [MqttCredentials(settings.mqttUsername, settings.mqttPassword)];
      }
      calls := calls + [MqttConnect(settings.mqttBroker, settings.mqttPort, 60)];
      ok := world.mqttConnect;
    }

    method OnConnect(rc: int)
      modifies this
      ensures Current() == OnConnectStep(settings, old(Current()), rc)
    {
      if rc == 0 {
        calls := calls + [MqttSubscribe(settings.mqttTopic)];
      }
    }

    /** `_on_message` and `_store_sensor_data`, with `datetime.now()` passed in as `now`. */
    method OnMessage(msg: Message, now: DateTime)
      modifies this
      ensures Current() == OnMessageStep(world, old(Current()), msg, now)
    {
      if msg.text.None? || msg.document.None? {
        return;
      }
      var data := msg.document.value;
      var sensorId := SensorId(msg.topic, data);
      if sensorId.None? || !data.JObject? || dbConnection.None? {
        return;
      }
      var row := StoreSensorData(sensorId.value, data, msg.text.value, now);
      var accepted := world.insertAccepted(cursor.insert);
      cursor := cursor.(insert := cursor.insert + 1);
      if row.Some? && accepted {
        calls := calls + [DbInsert(row.value)];
      }
    }

    method Cleanup()
      modifies this
      ensures Current() == CleanupStep(world, old(Current()))
    {
      running := false;
      if mqttClient.Some? {
        calls := calls + [MqttLoopStop, MqttDisconnect];
      }
      if dbConnection.Some? {
        var alive := IsConnected();
        if alive {
          calls := calls + [DbClose];
        }
      }
    }

    /** One pass of the body of `run`'s loop; `exit` says whether and why the loop ends after it. */
    method SupervisePass(startTime: int) returns (exit: Option<Exit>)
      modifies this
      ensures Iterated(Current(), exit) == IterationStep(world, settings, startTime, old(Current()))
    {
      var now := ReadClock();
      if now - startTime > settings.maxRuntime {
        return Some(RuntimeExceeded);
      }
      var alive := IsConnected();
      if !alive {
        var reconnected := ConnectDatabase();
        if !reconnected {
          return Some(ReconnectFailed);
        }
      }
      var signal := world.signalled(cursor.sleep);
      calls := calls + [Sleep(1)];
      cursor := cursor.(sleep := cursor.sleep + 1);
      if signal {
        SignalHandler();
        return Some(Signalled);
      }
      exit := None;
    }

    /** The `while self.running` loop of `run`, entered with `running` set and a database handle. */
    method Supervise(startTime: int)
      requires ClockAdvances(world) && running && dbConnection.Some?
      modifies this
      ensures Current() == LoopFrom(world, settings, startTime, old(Current())).state
    {
      ghost var target := LoopFrom(world, settings, startTime, Current());
      while running
        invariant dbConnection.Some?
        invariant running ==> LoopFrom(world, settings, startTime, Current()) == target
        invariant !running ==> Current() == target.state
        decreases if running then Remaining(world, settings, startTime, cursor.clock) + 1 else 0
      {
        ghost var top := Current();
        var exit := SupervisePass(startTime);
        assert world.clock(top.cursor.clock) < world.clock(top.cursor.clock + 1);
        if exit == Some(RuntimeExceeded) || exit == Some(ReconnectFailed) {
          break;
        }
      }
    }

    method Run() returns (outcome: RunOutcome)
      requires ClockAdvances(world)
      modifies this
      ensures RunEnd(Current(), outcome) == RunSpec(world, settings, old(Current()))
    {
      ghost var spec := RunSpec(world, settings, Current());
      ghost var db := ConnectDatabaseStep(world, settings, Current());
      var dbOk := ConnectDatabase();
      if !dbOk {
        return Returned(false);
      }
      ghost var tables := CreateTablesStep(world, db.state);
      var tablesOk := CreateTables();
      if !tablesOk {
        return Raised;
      }
      ghost var mqtt := ConnectMqttStep(world, settings, tables.state);
      var mqttOk := ConnectMqtt();
      if !mqttOk {
        return Returned(false);
      }
      calls := calls + [MqttLoopStart];
      running := true;
      var startTime := ReadClock();
      assert Current() == LoopEntry(world, mqtt.state);
      ghost var loop := LoopFrom(world, settings, startTime, Current());
      Supervise(startTime);
      assert Current() == loop.state;
      Cleanup();
      outcome := Returned(true);
      assert spec == RunEnd(CleanupStep(world, loop.state), Returned(true));
    }
  }

  /**
   * `main`: build the client (loading the configuration) and run it; exit
   * status 0 exactly when `run` returned True, 1 when it returned False or
   * anything raised.
   */
  method RunMain(file: ConfigFile, env: Env, world: World) returns (code: int)
    requires ClockAdvances(world)
    ensures code == 0 || code == 1
    ensures code == 0 <==>
      LoadClientConfig(file, env).Ok? && RunSpec(world, LoadClientConfig(file, env).value, Initial).outcome == Returned(true)
  {
    var loaded := LoadClientConfig(file, env);
    if loaded.Err? {
      return 1;
    }
    var client := new MoistureClient(loaded.value, world);
    var outcome := client.Run();
    code := if outcome == Returned(true) then 0 else 1;
  }
}
