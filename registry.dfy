/**
  The values the command layer passes around: path and message arguments,
  the records of the drone registry as the validators see them, opaque
  handles to the radio library, the calls made on those handles and the
  error reports the modules print.
 */
module Registry {
  import opened Wrappers
  import opened Text

  /**
    A Python value as it reaches a handler: a path argument is a string, a
    fan-out decorator stores an int, an OSC message argument can be any of
    these. A float is not computed with: it is known by what `int()` and
    `str()` make of it.
   */
  datatype PyVal = Str(s: string) | Int(i: int) | Bool(b: bool) | Real(trunc: int, repr: string)

  /** `int(v)`; `None` is the `ValueError` a malformed string raises. */
  function ToInt(v: PyVal): (r: Option<int>)
    ensures v.Int? ==> r == Some(v.i)
    ensures v.Str? ==> r == ParseInt(v.s)
    ensures v.Bool? ==> r == Some(if v.b then 1 else 0)
  {
    match v
    case Str(s) => ParseInt(s)
    case Int(i) => Some(i)
    case Bool(b) => Some(if b then 1 else 0)
    case Real(t, _) => Some(t)
  }

  /**
    `str(v)`. An int is written in decimal and `int()` reads it back, so an
    id that went through a topic or selector string comes back unchanged.
   */
  function PyStr(v: PyVal): (r: string)
    ensures v.Str? ==> r == v.s
    ensures v.Int? ==> ParseInt(r) == Some(v.i)
  {
    match v
    case Str(s) => s
    case Int(i) =>
      ParseIntToStr(i);
      IntToStr(i)
    case Bool(b) => if b then "True" else "False"
    case Real(_, text) => text
  }

  datatype Exc = ValueError | TypeError | AttributeError | KeyError | IndexError | NameError

  /** What a module's `_error` prints, one entry per call. */
  datatype Report =
    | MissingModule(name: string)
    | DroneNotFound(id: int)
    | BadNode(node: int, count: int)
    | LogNotFound(log: string, id: int)
    | NoDroneConnected
    | NotConnected(id: int)
    | ParamNotFound(param: string, id: int)
    | LogStarted(log: string, id: int)
    | NoPosition(node: int)
    | AlreadyConnected(drone: PyVal)
    | ConnectionFailed(drone: PyVal, message: string)
    | Disconnected(drone: PyVal)
    | CannotDelete(drone: PyVal)
    | DuplicateLog(log: string)
    | Caught(exc: Exc)

  /**
    The result of a validator: the wrapped handler runs (`Pass`), or the
    validator reports an error and returns `None` (`Reject`), or something
    inside it raises (`Raise`).
   */
  datatype Verdict = Pass | Reject(report: Report) | Raise(exc: Exc)

  /** One group of a table of contents: the group name and its variable names, in the radio library's order. */
  datatype TocGroup = TocGroup(group: string, names: seq<string>)
  type Toc = seq<TocGroup>

  function Groups(t: Toc): (gs: seq<string>)
    ensures |gs| == |t| && forall i :: 0 <= i < |t| ==> gs[i] == t[i].group
  {
    if t == [] then [] else [t[0].group] + Groups(t[1..])
  }

  /** The names of group `g` (the first entry with that name, as a dict lookup finds it). */
  function TocNames(t: Toc, g: string): (names: seq<string>)
    requires g in Groups(t)
    ensures exists i :: 0 <= i < |t| && t[i].group == g && t[i].names == names
  {
    if t[0].group == g then t[0].names else TocNames(t[1..], g)
  }

  /** A handle of the radio library's `Crazyflie` class, identified by the creation that made it. */
  datatype Handle = Handle(serial: nat)

  /** A `LogConfig` of the radio library. */
  datatype LogConfig = LogConfig(serial: nat, logName: PyVal, period: PyVal)

  /** An LPS node position as stored in `lps_positions`: components 0, 1 and 2. */
  datatype Position = Position(x: PyVal, y: PyVal, z: PyVal)

  datatype Payload = Names(names: seq<string>) | Json(toc: Toc) | Value(v: PyVal) | Values(vs: seq<PyVal>) | NoArgs

  /** A call made on an external object, in the order made. */
  datatype Event =
    | ConnectCallbacks(cf: Handle)
    | OpenLink(cf: Handle, url: PyVal)
    | CloseLink(cf: Handle)
    | SetParamValue(cf: Handle, name: string, value: string)
    /** `send_setpoint(y, x, yaw, int(z * 1000))`; the last argument is kept as `z`. */
    | SendSetpoint(cf: Handle, first: PyVal, second: PyVal, yaw: PyVal, z: PyVal)
    | ParamUpdateCallback(cf: Handle, group: string, drone: string)
    | RequestAllParams(cf: Handle)
    | AddConfig(cf: Handle, config: LogConfig)
    | ConfigAddVariable(config: LogConfig, variable: PyVal, varType: PyVal)
    | DataCallback(config: LogConfig, droneId: int, log: string)
    | ErrorCallback(config: LogConfig)
    /** `data_received_cb.add_callback` with a callback that only prints what it receives. */
    | PrintingCallback(config: LogConfig)
    | ConfigStart(config: LogConfig)
    | Send(topic: string, payload: Payload)
    /** A value written to standard output. */
    | Printed(payload: Payload)
    | AnchorSetPosition(cf: Handle, node: int, pos: Position)
    | AnchorReboot(cf: Handle, node: int, toBootloader: bool)
    | ModuleStart(name: string)
    | ModuleStop(name: string)
    | TransportStart
    | TransportShutdown

  /** What the validators read of one registry record. `logs` maps a log name to its `started` flag. */
  datatype DroneView = DroneView(connected: bool, logs: Option<map<string, bool>>, paramToc: Toc, logToc: Toc)

  /** What the validators read of the server: registered module names, the registry in insertion order, the LPS table. */
  datatype View = View(
    modules: set<string>,
    ids: seq<PyVal>,
    drones: map<PyVal, DroneView>,
    lpsNodeNumber: int,
    lpsPositions: seq<Option<Position>>)

  /** The registry keys whose record is connected, in insertion order. */
  function ConnectedIds(ids: seq<PyVal>, drones: map<PyVal, DroneView>): (r: seq<PyVal>)
    ensures |r| <= |ids|
    ensures forall k :: k in r <==> k in ids && k in drones && drones[k].connected
  {
    if ids == [] then []
    else
      var rest := ConnectedIds(ids[1..], drones);
      assert forall k :: k in ids <==> k == ids[0] || k in ids[1..];
      if ids[0] in drones && drones[ids[0]].connected then [ids[0]] + rest else rest
  }

  /** Appending an id to the registry adds it to the connected list exactly when its record is connected. */
  lemma {:induction false} ConnectedIdsAppend(ids: seq<PyVal>, drones: map<PyVal, DroneView>, k: PyVal)
    ensures ConnectedIds(ids + [k], drones)
      == ConnectedIds(ids, drones) + (if k in drones && drones[k].connected then [k] else [])
  {
    if ids != [] {
      assert (ids + [k])[1..] == ids[1..] + [k];
      ConnectedIdsAppend(ids[1..], drones, k);
    }
  }
}
