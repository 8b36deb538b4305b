/**
  `multi_drones` of the `server_osc_modules` tree, which wraps the log
  handlers of that tree, and `add_default_loggers`, which sets up the
  position and battery logs of one drone through those handlers.

  The selector goes through `str()`; `*` expands to the keys of the
  registry, anything else to its `;`-separated tokens. As written, the
  handler call sits in a `return` inside the `try`: the loop stops after
  the first target whose handler returns, so a selector naming several
  drones reaches only the first (`ServerMultiDronesAsWritten`). The
  intended decorator runs the handler once per target, as the decorator of
  the other tree does (`ServerMultiDrones`), and is the one the rest of
  the model uses.
 */
module ServerFanOut {
  import opened Wrappers
  import opened Text
  import opened Registry
  import opened OscValidators
  import opened ServerValidators
  import opened Fleet
  import opened FleetServer
  import opened FanOut
  import opened LogHandlers
  import opened Loggers
  import opened ServerLogHandlers

  /** A handler of this tree decorated with `multi_drones`, with its message arguments other than the selector. */
  datatype ServerAction =
    | NewLog(logName: PyVal, period: PyVal)
    | NewVariable(logName: PyVal, variable: PyVal, varType: PyVal)
    | Begin(logName: PyVal)
    | TocVariable(variable: PyVal)
    | WholeToc(address: string)

  /** The decorated handler for one drone id. */
  function ServerBody(f: Fleet, a: ServerAction, id: int): (r: Ran)
    ensures r.raised.Some? ==> a.NewLog? && r.raised.value == ValueError
    ensures (a.NewLog? || a.TocVariable? || a.WholeToc?) && !ConnectedId(f, id) ==> r.raised.None? && OneReport(f, r.f)
  {
    match a
    case NewLog(logName, period) => ServerAddLogAt(f, id, logName, period)
    case NewVariable(logName, variable, varType) => ServerAddVariableAt(f, id, logName, variable, varType)
    case Begin(logName) => ServerLogStartAt(f, id, logName)
    case TocVariable(variable) => ServerSendTocVariableAt(f, id, variable)
    case WholeToc(address) => ServerSendTocAt(f, id, address)
  }

  // ---------------------------------------------------------------------
  // The loop as written: `return` inside the `try`

  /**
    The loop as written: an unconvertible target raises out of the loop; a
    handler that returns ends the loop with its result; a handler that
    raises is reported and the next target is tried.
   */
  function EarlyFan(f: Fleet, ts: seq<Target>, a: ServerAction): (r: Ran)
    ensures ts == [] ==> r == Ran(f, None)
    ensures ts != [] && ts[0].Unconvertible? ==> r == Ran(f, Some(ts[0].exc))
    ensures ts != [] && ts[0].Target? && ServerBody(f, a, ts[0].id).raised.None? ==>
      r == ServerBody(f, a, ts[0].id)
    decreases |ts|
  {
    if ts == [] then Ran(f, None)
    else match ts[0]
      case Unconvertible(e) => Ran(f, Some(e))
      case Target(id) =>
        var body := ServerBody(f, a, id);
        if body.raised.None? then body
        else EarlyFan(Catch(body).f, ts[1..], a)
  }

  /** `multi_drones` as written. */
  function ServerMultiDronesAsWritten(f: Fleet, sel: PyVal, a: ServerAction): (r: Ran)
    ensures "CRAZYFLIE" !in f.modules ==> r == Ran(f.(errors := f.errors + [MissingModule("CRAZYFLIE")]), None)
  {
    var p := ServerDronePlan(ViewOf(f), sel);
    if p.Refused? then Ran(f.(errors := f.errors + [p.report]), None)
    else EarlyFan(f, p.ts, a)
  }

  // ---------------------------------------------------------------------
  // The loop as intended: every target

  /**
    The loop over the first `|ts|` targets: an unconvertible target ends it
    with its exception; an exception of the handler is reported and the
    loop goes on.
   */
  function ServerFan(f: Fleet, ts: seq<Target>, a: ServerAction): (r: Ran)
    ensures ts == [] ==> r == Ran(f, None)
    ensures r.raised.Some? ==> exists i :: 0 <= i < |ts| && ts[i] == Unconvertible(r.raised.value)
    decreases |ts|
  {
    if ts == [] then Ran(f, None)
    else
      var prev := ServerFan(f, ts[..|ts| - 1], a);
      if prev.raised.Some? then prev
      else match ts[|ts| - 1]
        case Unconvertible(e) => Ran(prev.f, Some(e))
        case Target(id) => Catch(ServerBody(prev.f, a, id))
  }

  /** `multi_drones` with the handler run for every target of the selector. */
  function ServerMultiDrones(f: Fleet, sel: PyVal, a: ServerAction): (r: Ran)
    ensures "CRAZYFLIE" !in f.modules ==> r == Ran(f.(errors := f.errors + [MissingModule("CRAZYFLIE")]), None)
  {
    var p := ServerDronePlan(ViewOf(f), sel);
    if p.Refused? then Ran(f.(errors := f.errors + [p.report]), None)
    else ServerFan(f, p.ts, a)
  }

  /** One more turn of the intended loop, when the turns before raised nothing. */
  lemma ServerFanStep(f: Fleet, ts: seq<Target>, i: nat, a: ServerAction)
    requires i < |ts| && ServerFan(f, ts[..i], a).raised.None?
    ensures var prev := ServerFan(f, ts[..i], a);
      ServerFan(f, ts[..i + 1], a) == match ts[i]
        case Unconvertible(e) => Ran(prev.f, Some(e))
        case Target(id) => Catch(ServerBody(prev.f, a, id))
  {
    assert ts[..i + 1][..i] == ts[..i];
  }

  /** A selector naming one drone id gives the one target, in both versions, so they agree on it. */
  lemma OneIdSelector(f: Fleet, id: int, a: ServerAction)
    requires "CRAZYFLIE" in f.modules
    ensures ServerDronePlan(ViewOf(f), Int(id)) == Targets([Target(id)])
    ensures ServerMultiDrones(f, Int(id), a) == Catch(ServerBody(f, a, id))
    ensures ServerMultiDronesAsWritten(f, Int(id), a) == Catch(ServerBody(f, a, id))
  {
    SingleSelector(id);
    assert [Target(id)][..0] == [];
  }

  // ---------------------------------------------------------------------
  // One drone's logs after the log handlers

  /** The logs of a registered drone, the missing `logs` dict read as empty. */
  function LogsOf(f: Fleet, id: int): map<PyVal, LogEntry>
    requires Int(id) in f.drones
  {
    LogsOrEmpty(f.drones[Int(id)].logs)
  }

  /** The drone is connected and the modules the log handlers need are there. */
  predicate Ready(f: Fleet, id: int) {
    "LOG" in f.modules && ConnectedId(f, id)
  }

  /** `f` with the logs of drone `id`, the configuration serial and the calls made replaced. */
  function State(f: Fleet, id: int, logs: map<PyVal, LogEntry>, created: nat, events: seq<Event>): (g: Fleet)
    requires Int(id) in f.drones
    ensures Int(id) in g.drones && LogsOf(g, id) == logs && g.drones[Int(id)].cf == f.drones[Int(id)].cf
    ensures g.created == created && g.events == events && g.ids == f.ids && g.errors == f.errors
    ensures Ready(f, id) ==> Ready(g, id)
  {
    f.(drones := f.drones[Int(id) := f.drones[Int(id)].(logs := Some(logs))], created := created, events := events)
  }

  /** Replacing twice is replacing once. */
  lemma StateTwice(f: Fleet, id: int, m1: map<PyVal, LogEntry>, c1: nat, e1: seq<Event>,
                   m2: map<PyVal, LogEntry>, c2: nat, e2: seq<Event>)
    requires Int(id) in f.drones
    ensures State(State(f, id, m1, c1, e1), id, m2, c2, e2) == State(f, id, m2, c2, e2)
  {
  }

  /** Adding a log the drone does not have: a new logger on the next configuration serial. */
  lemma BodyAddLog(f: Fleet, id: int, name: string, period: int)
    requires Ready(f, id) && Str(name) !in LogsOf(f, id)
    ensures ServerBody(f, NewLog(Str(name), Int(period)), id)
      == Ran(State(f, id, LogsOf(f, id)[Str(name) := NewLogger(LogConfig(f.created, Str(name), Int(period)))],
                   f.created + 1, f.events), None)
  {
    assert DroneConnected(ViewOf(f), Int(id)) == Pass;
  }

  /** Adding a variable to a log not started: the variable at the end of the logger's. */
  lemma BodyAddVariable(f: Fleet, id: int, name: string, variable: PyVal, varType: PyVal)
    requires Ready(f, id) && Str(name) in LogsOf(f, id) && !Started(LogsOf(f, id)[Str(name)])
    ensures var e := LogsOf(f, id)[Str(name)];
      ServerBody(f, NewVariable(Str(name), variable, varType), id)
      == Ran(State(f, id, LogsOf(f, id)[Str(name) := WithVariable(e, variable)],
                   f.created, f.events + [ConfigAddVariable(e.config, variable, varType)]), None)
  {
    var v := ViewOf(f);
    assert v.drones[Int(id)] == DroneViewOf(f.drones[Int(id)]);
    assert LogNotStarted(v, Int(id), Str(name)) == Pass;
  }

  /** Starting a log not started: the logger started and the four calls on the drone. */
  lemma BodyStart(f: Fleet, id: int, name: string)
    requires Ready(f, id) && Str(name) in LogsOf(f, id) && !Started(LogsOf(f, id)[Str(name)])
    ensures var e := LogsOf(f, id)[Str(name)];
      ServerBody(f, Begin(Str(name)), id)
      == Ran(State(f, id, LogsOf(f, id)[Str(name) := StartedLogger(e)],
                   f.created, f.events + LoggerStartCalls(f.drones[Int(id)].cf, e.config, id, name)), None)
  {
    var v := ViewOf(f);
    assert v.drones[Int(id)] == DroneViewOf(f.drones[Int(id)]);
    assert LogNotStarted(v, Int(id), Str(name)) == Pass;
  }

  // ---------------------------------------------------------------------
  // The early return, exhibited

  /** `*` over a registry of two int ids: the two targets, in registry order. */
  lemma StarPlanOfTwo(f: Fleet, n1: int, n2: int)
    requires "CRAZYFLIE" in f.modules && f.ids == [Int(n1), Int(n2)]
    ensures ServerDronePlan(ViewOf(f), Str("*")) == Targets([Target(n1), Target(n2)])
  {
  }

  /** The intended loop over two targets: the second runs on the state the first left. */
  lemma ServerFanOfTwo(f: Fleet, n1: int, n2: int, a: ServerAction)
    ensures ServerFan(f, [Target(n1), Target(n2)], a)
      == Catch(ServerBody(Catch(ServerBody(f, a, n1)).f, a, n2))
  {
    var ts := [Target(n1), Target(n2)];
    assert ts[..1] == [Target(n1)] && ts[..1][..0] == [];
  }

  /**
    With two connected drones and `*`, the intended decorator adds the new
    log to both drones, each on its own configuration serial; as written,
    only the first drone gets it and the second drone's logs stay as
    they were.
   */
  lemma StarReachesOnlyFirstAsWritten(f: Fleet, n1: int, n2: int, name: string, period: int)
    requires "CRAZYFLIE" in f.modules && "LOG" in f.modules
    requires f.ids == [Int(n1), Int(n2)] && n1 != n2
    requires ConnectedId(f, n1) && ConnectedId(f, n2)
    requires Str(name) !in LogsOf(f, n1) && Str(name) !in LogsOf(f, n2)
    ensures var g := State(f, n1, LogsOf(f, n1)[Str(name) := NewLogger(LogConfig(f.created, Str(name), Int(period)))],
                           f.created + 1, f.events);
      ServerMultiDronesAsWritten(f, Str("*"), NewLog(Str(name), Int(period))) == Ran(g, None)
      && ServerMultiDrones(f, Str("*"), NewLog(Str(name), Int(period)))
         == Ran(State(g, n2, LogsOf(f, n2)[Str(name) := NewLogger(LogConfig(f.created + 1, Str(name), Int(period)))],
                      f.created + 2, f.events), None)
  {
    var a := NewLog(Str(name), Int(period));
    StarPlanOfTwo(f, n1, n2);
    BodyAddLog(f, n1, name, period);
    var g := ServerBody(f, a, n1).f;
    assert LogsOf(g, n2) == LogsOf(f, n2);
    BodyAddLog(g, n2, name, period);
    ServerFanOfTwo(f, n1, n2, a);
  }

  // ---------------------------------------------------------------------
  // `add_default_loggers`

  /** The next of a straight-line sequence of handler calls, skipped once one has raised. */
  function AndThen(r: Ran, id: int, a: ServerAction): (s: Ran)
    ensures r.raised.Some? ==> s == r
  {
    if r.raised.Some? then r else ServerMultiDrones(r.f, Int(id), a)
  }

  /** The calls of `calls`, one after the other, each for the one drone `id`. */
  function Chain(f: Fleet, id: int, calls: seq<ServerAction>): (r: Ran)
    ensures "CRAZYFLIE" !in f.modules ==>
      r.raised.None? && r.f.(errors := f.errors) == f && |r.f.errors| == |f.errors| + |calls|
    decreases |calls|
  {
    if calls == [] then Ran(f, None)
    else AndThen(Chain(f, id, calls[..|calls| - 1]), id, calls[|calls| - 1])
  }

  /** The handler calls of `add_default_loggers`, in order. */
  function DefaultCalls(): seq<ServerAction> {
    [NewLog(Str("position"), Int(200)),
     NewVariable(Str("position"), Str("kalman.stateX"), Str("float")),
     NewVariable(Str("position"), Str("kalman.stateY"), Str("float")),
     NewVariable(Str("position"), Str("kalman.stateZ"), Str("float")),
     Begin(Str("position")),
     NewLog(Str("battery"), Int(1000)),
     NewVariable(Str("battery"), Str("pm.vbat"), Str("float")),
     Begin(Str("battery"))]
  }

  /**
    `add_default_loggers(drone_id)`: `int(drone_id)` (malformed: `ValueError`),
    then a `position` log every 200 ms with the three Kalman state
    coordinates, started, and a `battery` log every 1000 ms with the
    battery voltage, started, each call through the decorated handler.
   */
  function DefaultLoggersAt(f: Fleet, droneArg: PyVal): (r: Ran)
    ensures ToInt(droneArg).None? ==> r == Ran(f, Some(ValueError))
  {
    match ToInt(droneArg)
    case None => Ran(f, Some(ValueError))
    case Some(id) => Chain(f, id, DefaultCalls())
  }

  /** One more call of the sequence. */
  lemma ChainStep(f: Fleet, id: int, calls: seq<ServerAction>, k: nat)
    requires k < |calls|
    ensures Chain(f, id, calls[..k + 1]) == AndThen(Chain(f, id, calls[..k]), id, calls[k])
  {
    assert calls[..k + 1][..k] == calls[..k];
  }

  /** Setting one key of a map twice keeps the second value. */
  lemma UpdateTwice(m: map<PyVal, LogEntry>, k: PyVal, x: LogEntry, y: LogEntry)
    ensures m[k := x][k := y] == m[k := y]
  {
  }

  /** A call of the sequence that adds a log the drone does not have. */
  lemma ChainAddLog(f0: Fleet, id: int, calls: seq<ServerAction>, k: nat, f: Fleet,
                    m: map<PyVal, LogEntry>, c: nat, es: seq<Event>, name: string, period: int)
    requires k < |calls| && calls[k] == NewLog(Str(name), Int(period))
    requires Ready(f, id) && Chain(f0, id, calls[..k]) == Ran(State(f, id, m, c, es), None)
    requires Str(name) !in m
    ensures Chain(f0, id, calls[..k + 1])
      == Ran(State(f, id, m[Str(name) := Kept(LogConfig(c, Str(name), Int(period)), [], false)], c + 1, es), None)
  {
    var g := State(f, id, m, c, es);
    ChainStep(f0, id, calls, k);
    OneIdSelector(g, id, calls[k]);
    BodyAddLog(g, id, name, period);
    StateTwice(f, id, m, c, es, m[Str(name) := NewLogger(LogConfig(c, Str(name), Int(period)))], c + 1, es);
  }

  /** The first call of the sequence, when it adds a log the drone does not have. */
  lemma ChainFirstAddLog(f: Fleet, id: int, calls: seq<ServerAction>, name: string, period: int)
    requires 0 < |calls| && calls[0] == NewLog(Str(name), Int(period))
    requires Ready(f, id) && Str(name) !in LogsOf(f, id)
    ensures Chain(f, id, calls[..1])
      == Ran(State(f, id, LogsOf(f, id)[Str(name) := Kept(LogConfig(f.created, Str(name), Int(period)), [], false)],
                   f.created + 1, f.events), None)
  {
    assert calls[..0] == [];
    ChainStep(f, id, calls, 0);
    OneIdSelector(f, id, calls[0]);
    BodyAddLog(f, id, name, period);
  }

  /** A call of the sequence that adds a variable to the logger `name`, not started. */
  lemma ChainAddVariable(f0: Fleet, id: int, calls: seq<ServerAction>, k: nat, f: Fleet,
                         m: map<PyVal, LogEntry>, name: string, config: LogConfig, vs: seq<PyVal>,
                         c: nat, es: seq<Event>, variable: PyVal, varType: PyVal)
    requires k < |calls| && calls[k] == NewVariable(Str(name), variable, varType)
    requires Ready(f, id)
    requires Chain(f0, id, calls[..k]) == Ran(State(f, id, m[Str(name) := Kept(config, vs, false)], c, es), None)
    ensures Chain(f0, id, calls[..k + 1])
      == Ran(State(f, id, m[Str(name) := Kept(config, vs + [variable], false)], c,
                   es + [ConfigAddVariable(config, variable, varType)]), None)
  {
    var m0 := m[Str(name) := Kept(config, vs, false)];
    var g := State(f, id, m0, c, es);
    ChainStep(f0, id, calls, k);
    OneIdSelector(g, id, calls[k]);
    BodyAddVariable(g, id, name, variable, varType);
    UpdateTwice(m, Str(name), Kept(config, vs, false), Kept(config, vs + [variable], false));
    StateTwice(f, id, m0, c, es, m[Str(name) := Kept(config, vs + [variable], false)], c,
               es + [ConfigAddVariable(config, variable, varType)]);
  }

  /** A call of the sequence that starts the logger `name`, not started. */
  lemma ChainStart(f0: Fleet, id: int, calls: seq<ServerAction>, k: nat, f: Fleet,
                   m: map<PyVal, LogEntry>, name: string, config: LogConfig, vs: seq<PyVal>,
                   c: nat, es: seq<Event>)
    requires k < |calls| && calls[k] == Begin(Str(name))
    requires Ready(f, id)
    requires Chain(f0, id, calls[..k]) == Ran(State(f, id, m[Str(name) := Kept(config, vs, false)], c, es), None)
    ensures Chain(f0, id, calls[..k + 1])
      == Ran(State(f, id, m[Str(name) := Kept(config, vs, true)], c,
                   es + LoggerStartCalls(f.drones[Int(id)].cf, config, id, name)), None)
  {
    var m0 := m[Str(name) := Kept(config, vs, false)];
    var g := State(f, id, m0, c, es);
    ChainStep(f0, id, calls, k);
    OneIdSelector(g, id, calls[k]);
    BodyStart(g, id, name);
    UpdateTwice(m, Str(name), Kept(config, vs, false), Kept(config, vs, true));
    StateTwice(f, id, m0, c, es, m[Str(name) := Kept(config, vs, true)], c,
               es + LoggerStartCalls(f.drones[Int(id)].cf, config, id, name));
  }

  /** The configuration of the `position` log, on serial `c`. */
  function PositionConfig(c: nat): LogConfig {
    LogConfig(c, Str("position"), Int(200))
  }

  /** The configuration of the `battery` log, on serial `c`. */
  function BatteryConfig(c: nat): LogConfig {
    LogConfig(c, Str("battery"), Int(1000))
  }

  /** The calls on the drone while the `position` log is set up on serial `c`. */
  function PositionCalls(cf: Handle, c: nat, id: int): seq<Event> {
    [ConfigAddVariable(PositionConfig(c), Str("kalman.stateX"), Str("float")),
     ConfigAddVariable(PositionConfig(c), Str("kalman.stateY"), Str("float")),
     ConfigAddVariable(PositionConfig(c), Str("kalman.stateZ"), Str("float"))]
    + LoggerStartCalls(cf, PositionConfig(c), id, "position")
  }

  /** The calls on the drone while the `battery` log is set up on serial `c`. */
  function BatteryCalls(cf: Handle, c: nat, id: int): seq<Event> {
    [ConfigAddVariable(BatteryConfig(c), Str("pm.vbat"), Str("float"))]
    + LoggerStartCalls(cf, BatteryConfig(c), id, "battery")
  }

  /** The variables the `position` log is given, as added one after the other. */
  lemma PositionVariables(x: PyVal, y: PyVal, z: PyVal)
    ensures [] + [x] + [y] + [z] == [x, y, z]
  {
  }

  /** The variable the `battery` log is given. */
  lemma BatteryVariables(v: PyVal)
    ensures [] + [v] == [v]
  {
  }

  /** The calls on the drone while the `position` log is set up, as made one after the other. */
  lemma PositionCallsInOrder(es: seq<Event>, cf: Handle, c: nat, id: int)
    ensures var t := Str("float");
      es + [ConfigAddVariable(PositionConfig(c), Str("kalman.stateX"), t)]
         + [ConfigAddVariable(PositionConfig(c), Str("kalman.stateY"), t)]
         + [ConfigAddVariable(PositionConfig(c), Str("kalman.stateZ"), t)]
         + LoggerStartCalls(cf, PositionConfig(c), id, "position")
      == es + PositionCalls(cf, c, id)
  {
  }

  /** The calls on the drone while the `battery` log is set up, as made one after the other. */
  lemma BatteryCallsInOrder(es: seq<Event>, cf: Handle, c: nat, id: int)
    ensures es + [ConfigAddVariable(BatteryConfig(c), Str("pm.vbat"), Str("float"))]
               + LoggerStartCalls(cf, BatteryConfig(c), id, "battery")
      == es + BatteryCalls(cf, c, id)
  {
  }

  /** The eight calls, one by one. */
  lemma DefaultCallsAre()
    ensures var cs := DefaultCalls();
      |cs| == 8 && cs[..8] == cs
      && cs[0] == NewLog(Str("position"), Int(200))
      && cs[1] == NewVariable(Str("position"), Str("kalman.stateX"), Str("float"))
      && cs[2] == NewVariable(Str("position"), Str("kalman.stateY"), Str("float"))
      && cs[3] == NewVariable(Str("position"), Str("kalman.stateZ"), Str("float"))
      && cs[4] == Begin(Str("position"))
      && cs[5] == NewLog(Str("battery"), Int(1000))
      && cs[6] == NewVariable(Str("battery"), Str("pm.vbat"), Str("float"))
      && cs[7] == Begin(Str("battery"))
  {
  }

  lemma DefaultCallsCount()
    ensures |DefaultCalls()| == 8 && DefaultCalls()[..8] == DefaultCalls()
  {
  }

  /** The first five calls: the `position` log added, given its three variables in order, and started. */
  lemma PositionSetUp(f: Fleet, id: int)
    requires Ready(f, id) && Str("position") !in LogsOf(f, id)
    ensures Chain(f, id, DefaultCalls()[..5])
      == Ran(State(f, id, LogsOf(f, id)[Str("position") :=
                     Kept(PositionConfig(f.created), [Str("kalman.stateX"), Str("kalman.stateY"), Str("kalman.stateZ")], true)],
                   f.created + 1, f.events + PositionCalls(f.drones[Int(id)].cf, f.created, id)), None)
  {
    var cs := DefaultCalls();
    var c := PositionConfig(f.created);
    var m := LogsOf(f, id);
    var c1: nat := f.created + 1;
    var x, y, z, t := Str("kalman.stateX"), Str("kalman.stateY"), Str("kalman.stateZ"), Str("float");
    DefaultCallsAre();
    ChainFirstAddLog(f, id, cs, "position", 200);
    ChainAddVariable(f, id, cs, 1, f, m, "position", c, [], c1, f.events, x, t);
    var e2 := f.events + [ConfigAddVariable(c, x, t)];
    ChainAddVariable(f, id, cs, 2, f, m, "position", c, [] + [x], c1, e2, y, t);
    var e3 := e2 + [ConfigAddVariable(c, y, t)];
    ChainAddVariable(f, id, cs, 3, f, m, "position", c, [] + [x] + [y], c1, e3, z, t);
    var e4 := e3 + [ConfigAddVariable(c, z, t)];
    ChainStart(f, id, cs, 4, f, m, "position", c, [] + [x] + [y] + [z], c1, e4);
    PositionVariables(x, y, z);
    PositionCallsInOrder(f.events, f.drones[Int(id)].cf, f.created, id);
  }

  /** The last three calls: the `battery` log added, given its variable, and started. */
  lemma BatterySetUp(f: Fleet, id: int, m: map<PyVal, LogEntry>, c0: nat, es: seq<Event>)
    requires Ready(f, id) && Chain(f, id, DefaultCalls()[..5]) == Ran(State(f, id, m, c0, es), None)
    requires Str("battery") !in m
    ensures Chain(f, id, DefaultCalls())
      == Ran(State(f, id, m[Str("battery") := Kept(BatteryConfig(c0), [Str("pm.vbat")], true)],
                   c0 + 1, es + BatteryCalls(f.drones[Int(id)].cf, c0, id)), None)
  {
    var cs := DefaultCalls();
    var c := BatteryConfig(c0);
    var c1: nat := c0 + 1;
    var v, t := Str("pm.vbat"), Str("float");
    DefaultCallsAre();
    ChainAddLog(f, id, cs, 5, f, m, c0, es, "battery", 1000);
    ChainAddVariable(f, id, cs, 6, f, m, "battery", c, [], c1, es, v, t);
    var e2 := es + [ConfigAddVariable(c, v, t)];
    ChainStart(f, id, cs, 7, f, m, "battery", c, [] + [v], c1, e2);
    BatteryVariables(v);
    BatteryCallsInOrder(es, f.drones[Int(id)].cf, c0, id);
  }

  /**
    For a connected drone without `position` or `battery` logs,
    `add_default_loggers` leaves exactly those two logs added and started,
    with their variables in the order given, on two new configuration
    serials; the calls on the drone are the variables and start of the
    first log, then those of the second; no other drone changes and
    nothing is reported.
   */
  lemma DefaultLoggersSetUp(f: Fleet, id: int)
    requires Ready(f, id)
    requires Str("position") !in LogsOf(f, id) && Str("battery") !in LogsOf(f, id)
    ensures var cf := f.drones[Int(id)].cf;
      DefaultLoggersAt(f, Int(id))
      == Ran(State(f, id, LogsOf(f, id)
                     [Str("position") := Kept(PositionConfig(f.created), [Str("kalman.stateX"), Str("kalman.stateY"), Str("kalman.stateZ")], true)]
                     [Str("battery") := Kept(BatteryConfig(f.created + 1), [Str("pm.vbat")], true)],
                   f.created + 2,
                   f.events + PositionCalls(cf, f.created, id) + BatteryCalls(cf, f.created + 1, id)), None)
  {
    var m1 := LogsOf(f, id)[Str("position") :=
      Kept(PositionConfig(f.created), [Str("kalman.stateX"), Str("kalman.stateY"), Str("kalman.stateZ")], true)];
    PositionSetUp(f, id);
    BatterySetUp(f, id, m1, f.created + 1, f.events + PositionCalls(f.drones[Int(id)].cf, f.created, id));
  }

  // ---------------------------------------------------------------------
  // The same decorator as methods on the server

  /** The decorated handler for one drone id. */
  method RunServerBody(srv: Server, a: ServerAction, id: int) returns (raised: Option<Exc>)
    modifies srv
    ensures Ran(srv.Snap(), raised) == ServerBody(old(srv.Snap()), a, id)
    ensures srv.Routing() == old(srv.Routing())
  {
    match a
    case NewLog(logName, period) => raised := ServerAddLogOn(srv, id, logName, period);
    case NewVariable(logName, variable, varType) => raised := ServerAddVariableOn(srv, id, logName, variable, varType);
    case Begin(logName) => raised := ServerLogStartOn(srv, id, logName);
    case TocVariable(variable) => raised := ServerSendTocVariableOn(srv, id, variable);
    case WholeToc(address) => raised := ServerSendTocOn(srv, id, address);
  }

  /** The loop over the targets, every one of them. */
  method RunServerFan(srv: Server, ts: seq<Target>, a: ServerAction) returns (raised: Option<Exc>)
    modifies srv
    ensures Ran(srv.Snap(), raised) == ServerFan(old(srv.Snap()), ts, a)
    ensures srv.Routing() == old(srv.Routing())
  {
    ghost var f0 := srv.Snap();
    var i := 0;
    while i < |ts|
      invariant 0 <= i <= |ts|
      invariant Ran(srv.Snap(), None) == ServerFan(f0, ts[..i], a)
      invariant srv.Routing() == old(srv.Routing())
    {
      match ts[i]
      case Unconvertible(e) =>
        ServerFanAbort(f0, ts, i, a);
        return Some(e);
      case Target(id) =>
        ghost var g := srv.Snap();
        var r := RunServerBody(srv, a, id);
        ghost var body := Ran(srv.Snap(), r);
        CatchOn(srv, r);
        ServerFanTurn(f0, ts, i, a, g, body, srv.Snap());
      i := i + 1;
    }
    assert ts[..i] == ts;
    return None;
  }

  /** A target that does not convert ends the loop with its exception. */
  lemma ServerFanAbort(f: Fleet, ts: seq<Target>, i: nat, a: ServerAction)
    requires i < |ts| && ts[i].Unconvertible? && ServerFan(f, ts[..i], a).raised.None?
    ensures ServerFan(f, ts, a) == Ran(ServerFan(f, ts[..i], a).f, Some(ts[i].exc))
  {
    ServerFanStep(f, ts, i, a);
    ServerFanStopsAtRaise(f, ts, i + 1, a);
  }

  /** A turn of the loop that calls the handler: its result, the exception reported. */
  lemma ServerFanTurn(f: Fleet, ts: seq<Target>, i: nat, a: ServerAction, g: Fleet, body: Ran, h: Fleet)
    requires i < |ts| && ts[i].Target? && Ran(g, None) == ServerFan(f, ts[..i], a)
    requires body == ServerBody(g, a, ts[i].id) && Ran(h, None) == Catch(body)
    ensures Ran(h, None) == ServerFan(f, ts[..i + 1], a)
  {
    ServerFanStep(f, ts, i, a);
  }

  /** Once a turn has raised, the later turns change nothing. */
  lemma {:induction false} ServerFanStopsAtRaise(f: Fleet, ts: seq<Target>, i: nat, a: ServerAction)
    requires i <= |ts| && ServerFan(f, ts[..i], a).raised.Some?
    ensures ServerFan(f, ts, a) == ServerFan(f, ts[..i], a)
    decreases |ts| - i
  {
    if i < |ts| {
      assert ts[..i + 1][..i] == ts[..i];
      ServerFanStopsAtRaise(f, ts, i + 1, a);
    } else {
      assert ts[..i] == ts;
    }
  }

  /** `multi_drones` wrapping a handler: the selector expanded, then the loop over every target. */
  method RunServerMultiDrones(srv: Server, sel: PyVal, a: ServerAction) returns (raised: Option<Exc>)
    modifies srv
    ensures Ran(srv.Snap(), raised) == ServerMultiDrones(old(srv.Snap()), sel, a)
    ensures srv.Routing() == old(srv.Routing())
  {
    var p := ServerDronePlan(srv.View(), sel);
    if p.Refused? {
      srv.errors := srv.errors + [p.report];
      return None;
    }
    raised := RunServerFan(srv, p.ts, a);
  }

  /** One call of a straight-line sequence, skipped once one has raised. */
  method AndThenOn(srv: Server, raised: Option<Exc>, id: int, a: ServerAction) returns (next: Option<Exc>)
    modifies srv
    ensures Ran(srv.Snap(), next) == AndThen(Ran(old(srv.Snap()), raised), id, a)
    ensures srv.Routing() == old(srv.Routing())
  {
    if raised.Some? {
      return raised;
    }
    next := RunServerMultiDrones(srv, Int(id), a);
  }

  /** The next call of a sequence, on the state the calls before it left. */
  method ChainCallOn(srv: Server, raised: Option<Exc>, id: int, a: ServerAction,
                     ghost f0: Fleet, ghost calls: seq<ServerAction>, ghost k: nat) returns (next: Option<Exc>)
    requires k < |calls| && a == calls[k]
    requires Ran(srv.Snap(), raised) == Chain(f0, id, calls[..k])
    modifies srv
    ensures Ran(srv.Snap(), next) == Chain(f0, id, calls[..k + 1])
    ensures srv.Routing() == old(srv.Routing())
  {
    ChainStep(f0, id, calls, k);
    next := AndThenOn(srv, raised, id, a);
  }

  /** Before the first call of a sequence, the state is the one it started from. */
  lemma NoCallsYet(f: Fleet, id: int, calls: seq<ServerAction>)
    ensures Chain(f, id, calls[..0]) == Ran(f, None)
  {
    assert calls[..0] == [];
  }

  /** `add_default_loggers`: `int(drone_id)`, then the eight handler calls in order. */
  method AddDefaultLoggersOn(srv: Server, droneArg: PyVal) returns (raised: Option<Exc>)
    modifies srv
    ensures Ran(srv.Snap(), raised) == DefaultLoggersAt(old(srv.Snap()), droneArg)
    ensures srv.Routing() == old(srv.Routing())
  {
    var n := ToInt(droneArg);
    if n.None? {
      return Some(ValueError);
    }
    ghost var f0 := srv.Snap();
    var cs := DefaultCalls();
    DefaultCallsCount();
    raised := PositionLoggerOn(srv, n.value, cs);
    raised := BatteryLoggerOn(srv, n.value, cs, raised, f0);
  }

  /** The first five calls of `add_default_loggers`, which set up the `position` log. */
  method PositionLoggerOn(srv: Server, id: int, cs: seq<ServerAction>) returns (raised: Option<Exc>)
    requires |cs| == 8
    modifies srv
    ensures Ran(srv.Snap(), raised) == Chain(old(srv.Snap()), id, cs[..5])
    ensures srv.Routing() == old(srv.Routing())
  {
    ghost var f0 := srv.Snap();
    NoCallsYet(f0, id, cs);
    raised := ChainThreeOn(srv, None, id, cs, 0, f0);
    raised := ChainCallOn(srv, raised, id, cs[3], f0, cs, 3);
    raised := ChainCallOn(srv, raised, id, cs[4], f0, cs, 4);
  }

  /** The last three calls of `add_default_loggers`, which set up the `battery` log. */
  method BatteryLoggerOn(srv: Server, id: int, cs: seq<ServerAction>, raised: Option<Exc>, ghost f0: Fleet) returns (next: Option<Exc>)
    requires |cs| == 8
    requires Ran(srv.Snap(), raised) == Chain(f0, id, cs[..5])
    modifies srv
    ensures Ran(srv.Snap(), next) == Chain(f0, id, cs[..8])
    ensures srv.Routing() == old(srv.Routing())
  {
    next := ChainThreeOn(srv, raised, id, cs, 5, f0);
  }

  /** Three more calls of a sequence, from the `k`-th. */
  method ChainThreeOn(srv: Server, raised: Option<Exc>, id: int, cs: seq<ServerAction>, k: nat, ghost f0: Fleet)
    returns (next: Option<Exc>)
    requires k + 3 <= |cs|
    requires Ran(srv.Snap(), raised) == Chain(f0, id, cs[..k])
    modifies srv
    ensures Ran(srv.Snap(), next) == Chain(f0, id, cs[..k + 3])
    ensures srv.Routing() == old(srv.Routing())
  {
    next := ChainCallOn(srv, raised, id, cs[k], f0, cs, k);
    next := ChainCallOn(srv, next, id, cs[k + 1], f0, cs, k + 1);
    next := ChainCallOn(srv, next, id, cs[k + 2], f0, cs, k + 2);
  }
}
