/**
  `LogModule` of the `server_osc_modules` tree, each handler for one target
  of its drone selector: loggers stored by `str(log_name)` with a duplicate
  check, variables and start guarded by `log_not_started`, the log table
  sent whole or one group at a time, and the callback that publishes what
  a started logger receives.
 */
module ServerLogHandlers {
  import opened Wrappers
  import opened Text
  import opened Registry
  import opened OscValidators
  import opened ServerValidators
  import opened TocOrder
  import opened Fleet
  import opened FleetServer
  import opened ParamHandlers
  import opened LogHandlers
  import opened Loggers

  /** The registry key of a log: `str(log_name)`. */
  function LogKey(logArg: PyVal): PyVal {
    Str(PyStr(logArg))
  }

  /**
    `osc_add_log` for one target: after `drone_connected`, `int(log_ms_period)`
    (malformed: `ValueError`), then a name already present is reported and
    its logger kept; otherwise a new logger on a new configuration is
    stored under `str(log_name)`, the `logs` dict being made on first use.
   */
  function ServerAddLogAt(f: Fleet, id: int, logName: PyVal, period: PyVal): (r: Ran)
    ensures !ConnectedId(f, id) ==> r.raised.None? && OneReport(f, r.f)
    ensures ConnectedId(f, id) && ToInt(period).None? ==> r == Ran(f, Some(ValueError))
    ensures ConnectedId(f, id) && ToInt(period).Some? && LogKey(logName) in LogsOrEmpty(f.drones[Int(id)].logs) ==>
      r == Ran(f.(errors := f.errors + [DuplicateLog(PyStr(logName))]), None)
    ensures ConnectedId(f, id) && ToInt(period).Some? && LogKey(logName) !in LogsOrEmpty(f.drones[Int(id)].logs) ==>
      var rec := f.drones[Int(id)];
      var config := LogConfig(f.created, LogKey(logName), Int(ToInt(period).value));
      r == Ran(f.(drones := f.drones[Int(id) := rec.(logs := Some(LogsOrEmpty(rec.logs)[LogKey(logName) := NewLogger(config)]))],
                  created := f.created + 1), None)
  {
    var verdict := DroneConnected(ViewOf(f), Int(id));
    if verdict != Pass then Refuse(f, verdict)
    else match ToInt(period)
      case None => Ran(f, Some(ValueError))
      case Some(p) => NewServerLog(f, id, logName, p)
  }

  /** `add_log` once the period converted: a duplicate name is reported, otherwise a fresh logger is stored under `str(log_name)`. */
  function NewServerLog(f: Fleet, id: int, logName: PyVal, p: int): (r: Ran)
    requires Int(id) in f.drones
    ensures r.raised.None?
    ensures LogKey(logName) in LogsOrEmpty(f.drones[Int(id)].logs) <==> r.f == f.(errors := f.errors + [DuplicateLog(PyStr(logName))])
  {
    var key := LogKey(logName);
    var rec := f.drones[Int(id)];
    var logs := LogsOrEmpty(rec.logs);
    if key in logs then Ran(f.(errors := f.errors + [DuplicateLog(PyStr(logName))]), None)
    else
      var config := LogConfig(f.created, key, Int(p));
      Ran(f.(drones := f.drones[Int(id) := rec.(logs := Some(logs[key := NewLogger(config)]))],
             created := f.created + 1), None)
  }

  /** The logger `log_exists` found: the entry under `str(log_name)`, read as a logger. */
  function LoggerAt(f: Fleet, id: int, logArg: PyVal): (e: LogEntry)
    requires LogExists(ViewOf(f), Int(id), logArg) == Pass
    ensures e.Kept?
  {
    AsLogger(f.drones[Int(id)].logs.value[LogKey(logArg)])
  }

  /** The state with the logger under `str(log_name)` replaced by `e`. */
  function PutLogger(f: Fleet, id: int, logArg: PyVal, e: LogEntry): Fleet
    requires LogExists(ViewOf(f), Int(id), logArg) == Pass
  {
    var rec := f.drones[Int(id)];
    f.(drones := f.drones[Int(id) := rec.(logs := Some(rec.logs.value[LogKey(logArg) := e]))])
  }

  /**
    `osc_log_add_variable` for one target: after `log_exists` and
    `log_not_started`, the logger's `add_variable`: the name goes at the
    end of its variables and the configuration gets the variable.
   */
  function ServerAddVariableAt(f: Fleet, id: int, logArg: PyVal, variable: PyVal, varType: PyVal): (r: Ran)
    ensures r.raised.None?
    ensures LogNotStarted(ViewOf(f), Int(id), logArg) != Pass ==> OneReport(f, r.f)
    ensures LogNotStarted(ViewOf(f), Int(id), logArg) == Pass ==>
      var e := LoggerAt(f, id, logArg);
      r.f == PutLogger(f, id, logArg, WithVariable(e, variable)).(events := f.events + [ConfigAddVariable(e.config, variable, varType)])
  {
    var verdict := LogNotStarted(ViewOf(f), Int(id), logArg);
    if verdict != Pass then Refuse(f, verdict)
    else
      var e := LoggerAt(f, id, logArg);
      Ran(PutLogger(f, id, logArg, WithVariable(e, variable)).(events := f.events + [ConfigAddVariable(e.config, variable, varType)]), None)
  }

  /** The calls `osc_log_start` makes: the configuration added to the drone, the data and error callbacks, the start. */
  function LoggerStartCalls(cf: Handle, config: LogConfig, id: int, logName: string): seq<Event> {
    [AddConfig(cf, config), DataCallback(config, id, logName), ErrorCallback(config), ConfigStart(config)]
  }

  /**
    `osc_log_start` for one target: after `log_exists` and
    `log_not_started`, the configuration is added to the drone with a
    callback publishing under this drone and log, and the logger is started.
   */
  function ServerLogStartAt(f: Fleet, id: int, logArg: PyVal): (r: Ran)
    ensures r.raised.None?
    ensures LogNotStarted(ViewOf(f), Int(id), logArg) != Pass ==> OneReport(f, r.f)
    ensures LogNotStarted(ViewOf(f), Int(id), logArg) == Pass ==>
      var e := LoggerAt(f, id, logArg);
      r.f == PutLogger(f, id, logArg, StartedLogger(e))
               .(events := f.events + LoggerStartCalls(f.drones[Int(id)].cf, e.config, id, PyStr(logArg)))
  {
    var verdict := LogNotStarted(ViewOf(f), Int(id), logArg);
    if verdict != Pass then Refuse(f, verdict)
    else
      var e := LoggerAt(f, id, logArg);
      var calls := LoggerStartCalls(f.drones[Int(id)].cf, e.config, id, PyStr(logArg));
      Ran(PutLogger(f, id, logArg, StartedLogger(e)).(events := f.events + calls), None)
  }

  /**
    Once started, a log is frozen: adding a variable or starting it again
    only reports that it was started, and changes nothing else.
   */
  lemma StartedLogFrozen(f: Fleet, id: int, logArg: PyVal, variable: PyVal, varType: PyVal)
    requires LogNotStarted(ViewOf(f), Int(id), logArg) == Pass
    ensures var g := ServerLogStartAt(f, id, logArg).f;
      var report := LogStarted(PyStr(logArg), id);
      ServerAddVariableAt(g, id, logArg, variable, varType) == Ran(g.(errors := g.errors + [report]), None)
      && ServerLogStartAt(g, id, logArg) == Ran(g.(errors := g.errors + [report]), None)
  {
    var g := ServerLogStartAt(f, id, logArg).f;
    var v := ViewOf(g);
    var name := PyStr(logArg);
    assert Int(id) in g.drones && g.drones[Int(id)].logs.Some? && LogKey(logArg) in g.drones[Int(id)].logs.value;
    assert Started(g.drones[Int(id)].logs.value[LogKey(logArg)]);
    assert v.drones[Int(id)].logs.value[name];
    assert LogExists(v, Int(id), logArg) == Pass;
    assert LogNotStarted(v, Int(id), logArg) == Reject(LogStarted(name, id));
  }

  /**
    Two variables added to a log that was not started are kept in the
    order added, and the log is still not started.
   */
  lemma AddVariableKeepsOrder(f: Fleet, id: int, logArg: PyVal, v1: PyVal, v2: PyVal, t: PyVal)
    requires LogNotStarted(ViewOf(f), Int(id), logArg) == Pass
    ensures var g := ServerAddVariableAt(f, id, logArg, v1, t).f;
      var h := ServerAddVariableAt(g, id, logArg, v2, t).f;
      LogNotStarted(ViewOf(h), Int(id), logArg) == Pass
      && LoggerAt(h, id, logArg).variables == LoggerAt(f, id, logArg).variables + [v1, v2]
  {
    var g := ServerAddVariableAt(f, id, logArg, v1, t).f;
    StillNotStarted(f, id, logArg, v1, t);
    StillNotStarted(g, id, logArg, v2, t);
    TwoVariables(LoggerAt(f, id, logArg), v1, v2);
  }

  lemma TwoVariables(e: LogEntry, v1: PyVal, v2: PyVal)
    requires e.Kept?
    ensures WithVariable(WithVariable(e, v1), v2).variables == e.variables + [v1, v2]
  {
  }

  /** Adding a variable keeps the log there and not started. */
  lemma StillNotStarted(f: Fleet, id: int, logArg: PyVal, variable: PyVal, varType: PyVal)
    requires LogNotStarted(ViewOf(f), Int(id), logArg) == Pass
    ensures var g := ServerAddVariableAt(f, id, logArg, variable, varType).f;
      LogNotStarted(ViewOf(g), Int(id), logArg) == Pass
      && LoggerAt(g, id, logArg) == WithVariable(LoggerAt(f, id, logArg), variable)
  {
    var g := ServerAddVariableAt(f, id, logArg, variable, varType).f;
    var name := PyStr(logArg);
    assert Int(id) in g.drones && g.drones[Int(id)].logs.Some? && LogKey(logArg) in g.drones[Int(id)].logs.value;
    assert !Started(g.drones[Int(id)].logs.value[LogKey(logArg)]);
    assert !ViewOf(g).drones[Int(id)].logs.value[name];
    assert LogExists(ViewOf(g), Int(id), logArg) == Pass;
  }

  /**
    `osc_send_toc_variable` as written: for a group of the drone's log
    table, `'/'.join` is given the int id and raises `TypeError`; any other
    name sends nothing.
   */
  function ServerSendTocVariableAsWritten(f: Fleet, id: int, variable: PyVal): (r: Ran)
    ensures r.f.events == f.events
    ensures ConnectedId(f, id) ==>
      (r.raised.Some? <==> PyStr(variable) in Groups(f.drones[Int(id)].logToc))
  {
    var verdict := DroneConnected(ViewOf(f), Int(id));
    if verdict != Pass then Refuse(f, verdict)
    else if PyStr(variable) in Groups(SortedToc(f.drones[Int(id)].logToc)) then Ran(f, Some(TypeError))
    else Ran(f, None)
  }

  /**
    `osc_send_toc_variable` as intended: the sorted names of the group are
    published under `/<id>/toc/<group>`, the topic the module documents.
   */
  function ServerSendTocVariableAt(f: Fleet, id: int, variable: PyVal): (r: Ran)
    ensures r.raised.None?
    ensures !ConnectedId(f, id) ==> OneReport(f, r.f)
    ensures ConnectedId(f, id) && PyStr(variable) !in Groups(f.drones[Int(id)].logToc) ==> r.f == f
  {
    var verdict := DroneConnected(ViewOf(f), Int(id));
    if verdict != Pass then Refuse(f, verdict)
    else
      var toc := SortedToc(f.drones[Int(id)].logToc);
      var group := PyStr(variable);
      if group in Groups(toc) then Ran(f.(events := f.events + [Send(TocTopic(id, group), Names(TocNames(toc, group)))]), None)
      else Ran(f, None)
  }

  lemma SendTocVariableConnected(f: Fleet, id: int, variable: PyVal)
    requires DroneConnected(ViewOf(f), Int(id)) == Pass
    ensures Int(id) in f.drones
    ensures var toc := SortedToc(f.drones[Int(id)].logToc);
      var group := PyStr(variable);
      ServerSendTocVariableAt(f, id, variable)
        == if group in Groups(toc) then Ran(f.(events := f.events + [Send(TocTopic(id, group), Names(TocNames(toc, group)))]), None)
           else Ran(f, None)
  {
  }

  /**
    For a group of the log table, the handler as written publishes nothing
    and raises, where the intended one publishes the group's sorted names.
   */
  lemma SendTocVariableAsWrittenRaises(f: Fleet, id: int, variable: PyVal)
    requires ConnectedId(f, id) && PyStr(variable) in Groups(f.drones[Int(id)].logToc)
    ensures ServerSendTocVariableAsWritten(f, id, variable) == Ran(f, Some(TypeError))
    ensures ServerSendTocVariableAt(f, id, variable).f
      == f.(events := f.events + [Send(TocTopic(id, PyStr(variable)),
                                       Names(Sort(TocNames(f.drones[Int(id)].logToc, PyStr(variable)))))])
  {
    SortedTocLookup(f.drones[Int(id)].logToc, PyStr(variable));
  }

  /**
    `osc_send_toc` for one target: after `drone_connected`, the address is
    printed and the whole log table, each group sorted, is published as
    JSON under `/<id>/toc`.
   */
  function ServerSendTocAt(f: Fleet, id: int, address: string): (r: Ran)
    ensures r.raised.None?
    ensures !ConnectedId(f, id) ==> OneReport(f, r.f)
    ensures ConnectedId(f, id) ==>
      var toc := f.drones[Int(id)].logToc;
      r.f == f.(events := r.f.events) && |r.f.events| == |f.events| + 2
      && r.f.events[..|f.events|] == f.events
      && r.f.events[|f.events| + 1] == Send(TableTopic(id), Json(SortedToc(toc)))
      && Groups(r.f.events[|f.events| + 1].payload.toc) == Groups(toc)
  {
    var verdict := DroneConnected(ViewOf(f), Int(id));
    if verdict != Pass then Refuse(f, verdict)
    else
      var toc := SortedToc(f.drones[Int(id)].logToc);
      Ran(f.(events := f.events + [Printed(Value(Str(address))), Send(TableTopic(id), Json(toc))]), None)
  }

  // ---------------------------------------------------------------------
  // The callback of a started logger

  /** `log_content[var]` on the items of a received dict: only a string can equal one of its keys. */
  function Lookup(items: seq<(string, PyVal)>, key: PyVal): (r: Option<PyVal>)
    ensures r.Some? <==> key.Str? && exists i :: 0 <= i < |items| && items[i].0 == key.s
    ensures r.Some? ==> exists i :: 0 <= i < |items| && items[i].0 == key.s && items[i].1 == r.value
  {
    if items == [] || !key.Str? then None
    else if items[0].0 == key.s then Some(items[0].1)
    else
      var r := Lookup(items[1..], key);
      assert forall i :: 0 < i < |items| ==> items[i] == items[1..][i - 1];
      r
  }

  /** `[log_content[var] for var in logger.variables]`: `None` is the `KeyError` of the first missing one. */
  function ValuesOf(variables: seq<PyVal>, items: seq<(string, PyVal)>): (r: Option<seq<PyVal>>)
    ensures r.Some? <==> forall j :: 0 <= j < |variables| ==> Lookup(items, variables[j]).Some?
    ensures r.Some? ==>
      |r.value| == |variables|
      && forall j :: 0 <= j < |variables| ==> r.value[j] == Lookup(items, variables[j]).value
  {
    if variables == [] then Some([])
    else
      var init := ValuesOf(variables[..|variables| - 1], items);
      var last := Lookup(items, variables[|variables| - 1]);
      if init.None? || last.None? then None else Some(init.value + [last.value])
  }

  /** The topic of one variable: `'/'.join([str(drone_id), log_name, var])`. */
  function VariableTopic(id: int, logName: string, variable: string): string {
    Join([IntToStr(id), logName, variable], "/")
  }

  /** The sends of the loop over `log_content.items()`, in the dict's order. */
  function VariableSends(id: int, logName: string, items: seq<(string, PyVal)>): (es: seq<Event>)
    ensures |es| == |items|
    ensures forall i :: 0 <= i < |items| ==> es[i] == Send(VariableTopic(id, logName, items[i].0), Value(items[i].1))
  {
    if items == [] then []
    else VariableSends(id, logName, items[..|items| - 1]) + [Send(VariableTopic(id, logName, items[|items| - 1].0), Value(items[|items| - 1].1))]
  }

  /**
    The data callback of a started logger: each received variable on its
    own topic, then the values of the logger's variables, in the order
    they were added, under `<id>/<log>`; a variable of the logger missing
    from the data raises `KeyError` after the single sends.
   */
  function OnLogReceivedAt(f: Fleet, id: int, logName: string, variables: seq<PyVal>, items: seq<(string, PyVal)>): (r: Ran)
    ensures f.events <= r.f.events && r.f == f.(events := r.f.events)
    ensures r.raised.Some? <==> ValuesOf(variables, items).None?
    ensures r.raised.Some? ==> r == Ran(f.(events := f.events + VariableSends(id, logName, items)), Some(KeyError))
    ensures r.raised.None? ==>
      r.f.events == f.events + VariableSends(id, logName, items)
                    + [Send(Join([IntToStr(id), logName], "/"), Values(ValuesOf(variables, items).value))]
  {
    var sends := f.events + VariableSends(id, logName, items);
    match ValuesOf(variables, items)
    case None => Ran(f.(events := sends), Some(KeyError))
    case Some(vs) => Ran(f.(events := sends + [Send(Join([IntToStr(id), logName], "/"), Values(vs))]), None)
  }

  /**
    When the data holds every variable of the logger, the list published
    last has one value per variable, the value received for it, in the
    logger's order.
   */
  lemma PublishedInLoggerOrder(f: Fleet, id: int, logName: string, variables: seq<PyVal>, items: seq<(string, PyVal)>)
    requires forall j :: 0 <= j < |variables| ==> variables[j].Str? && exists i :: 0 <= i < |items| && items[i].0 == variables[j].s
    ensures var r := OnLogReceivedAt(f, id, logName, variables, items);
      var n := |f.events| + |items|;
      r.raised.None? && |r.f.events| == n + 1 && r.f.events[n].payload.Values?
      && |r.f.events[n].payload.vs| == |variables|
      && forall j :: 0 <= j < |variables| ==> exists i :: 0 <= i < |items| && items[i].0 == variables[j].s && items[i].1 == r.f.events[n].payload.vs[j]
  {
    var vs := ValuesOf(variables, items);
    assert vs.Some?;
    var r := OnLogReceivedAt(f, id, logName, variables, items);
    var n := |f.events| + |items|;
    assert r.f.events[n] == Send(Join([IntToStr(id), logName], "/"), Values(vs.value));
  }

  // ---------------------------------------------------------------------
  // The same handlers as methods on the server

  method ServerAddLogOn(srv: Server, id: int, logName: PyVal, period: PyVal) returns (raised: Option<Exc>)
    modifies srv
    ensures Ran(srv.Snap(), raised) == ServerAddLogAt(old(srv.Snap()), id, logName, period)
    ensures srv.Routing() == old(srv.Routing())
  {
    ghost var f0 := srv.Snap();
    var verdict := DroneConnected(srv.View(), Int(id));
    if verdict != Pass {
      raised := srv.Decline(verdict);
      return;
    }
    assert ConnectedId(f0, id);
    var p := ToInt(period);
    if p.None? {
      return Some(ValueError);
    }
    raised := NewServerLogOn(srv, id, logName, p.value);
  }

  method NewServerLogOn(srv: Server, id: int, logName: PyVal, p: int) returns (raised: Option<Exc>)
    requires Int(id) in srv.drones
    modifies srv
    ensures Ran(srv.Snap(), raised) == NewServerLog(old(srv.Snap()), id, logName, p)
    ensures srv.Routing() == old(srv.Routing())
  {
    ghost var f0 := srv.Snap();
    var key := LogKey(logName);
    var rec := srv.drones[Int(id)];
    var logs := LogsOrEmpty(rec.logs);
    if key in logs {
      srv.errors := srv.errors + [DuplicateLog(PyStr(logName))];
      assert srv.Snap() == f0.(errors := f0.errors + [DuplicateLog(PyStr(logName))]);
      return None;
    }
    var config := LogConfig(srv.created, key, Int(p));
    var entry := rec.(logs := Some(logs[key := NewLogger(config)]));
    NewLogAdded(f0, id, logName, p);
    srv.drones, srv.created := srv.drones[Int(id) := entry], srv.created + 1;
    assert srv.Snap() == f0.(drones := f0.drones[Int(id) := entry], created := f0.created + 1);
    raised := None;
  }

  /** The case of `NewServerLog` that adds the logger, written on the drone record. */
  lemma NewLogAdded(f: Fleet, id: int, logName: PyVal, p: int)
    requires Int(id) in f.drones && LogKey(logName) !in LogsOrEmpty(f.drones[Int(id)].logs)
    ensures var rec := f.drones[Int(id)];
      var entry := rec.(logs := Some(LogsOrEmpty(rec.logs)[LogKey(logName) := NewLogger(LogConfig(f.created, LogKey(logName), Int(p)))]));
      NewServerLog(f, id, logName, p) == Ran(f.(drones := f.drones[Int(id) := entry], created := f.created + 1), None)
  {
  }

  method ServerAddVariableOn(srv: Server, id: int, logArg: PyVal, variable: PyVal, varType: PyVal) returns (raised: Option<Exc>)
    modifies srv
    ensures Ran(srv.Snap(), raised) == ServerAddVariableAt(old(srv.Snap()), id, logArg, variable, varType)
    ensures srv.Routing() == old(srv.Routing())
  {
    ghost var f0 := srv.Snap();
    var verdict := LogNotStarted(srv.View(), Int(id), logArg);
    if verdict != Pass {
      raised := srv.Decline(verdict);
      return;
    }
    AddVariablePasses(f0, id, logArg, variable, varType);
    var rec := srv.drones[Int(id)];
    var e := AsLogger(rec.logs.value[LogKey(logArg)]);
    var added := rec.(logs := Some(rec.logs.value[LogKey(logArg) := WithVariable(e, variable)]));
    var call := ConfigAddVariable(e.config, variable, varType);
    srv.drones, srv.events := srv.drones[Int(id) := added], srv.events + [call];
    assert srv.Snap() == f0.(drones := f0.drones[Int(id) := added], events := f0.events + [call]);
    raised := None;
  }

  /** The case of `ServerAddVariableAt` that adds the variable, written on the drone record. */
  lemma AddVariablePasses(f: Fleet, id: int, logArg: PyVal, variable: PyVal, varType: PyVal)
    requires LogNotStarted(ViewOf(f), Int(id), logArg) == Pass
    ensures Int(id) in f.drones && f.drones[Int(id)].logs.Some? && LogKey(logArg) in f.drones[Int(id)].logs.value
    ensures var rec := f.drones[Int(id)];
      var e := AsLogger(rec.logs.value[LogKey(logArg)]);
      ServerAddVariableAt(f, id, logArg, variable, varType)
        == Ran(f.(drones := f.drones[Int(id) := rec.(logs := Some(rec.logs.value[LogKey(logArg) := WithVariable(e, variable)]))],
                  events := f.events + [ConfigAddVariable(e.config, variable, varType)]), None)
  {
    assert LogExists(ViewOf(f), Int(id), logArg) == Pass;
  }

  /** The started case of `ServerLogStartAt`, written on the drone record. */
  lemma StartPasses(f: Fleet, id: int, logArg: PyVal)
    requires LogNotStarted(ViewOf(f), Int(id), logArg) == Pass
    ensures Int(id) in f.drones && f.drones[Int(id)].logs.Some? && LogKey(logArg) in f.drones[Int(id)].logs.value
    ensures var rec := f.drones[Int(id)];
      var e := AsLogger(rec.logs.value[LogKey(logArg)]);
      ServerLogStartAt(f, id, logArg)
        == Ran(f.(drones := f.drones[Int(id) := rec.(logs := Some(rec.logs.value[LogKey(logArg) := StartedLogger(e)]))],
                  events := f.events + LoggerStartCalls(rec.cf, e.config, id, PyStr(logArg))), None)
  {
    assert LogExists(ViewOf(f), Int(id), logArg) == Pass;
  }

  method ServerLogStartOn(srv: Server, id: int, logArg: PyVal) returns (raised: Option<Exc>)
    modifies srv
    ensures Ran(srv.Snap(), raised) == ServerLogStartAt(old(srv.Snap()), id, logArg)
    ensures srv.Routing() == old(srv.Routing())
  {
    ghost var f0 := srv.Snap();
    var verdict := LogNotStarted(srv.View(), Int(id), logArg);
    if verdict != Pass {
      raised := srv.Decline(verdict);
      return;
    }
    StartPasses(f0, id, logArg);
    var rec := srv.drones[Int(id)];
    var e := AsLogger(rec.logs.value[LogKey(logArg)]);
    var started := rec.(logs := Some(rec.logs.value[LogKey(logArg) := StartedLogger(e)]));
    var calls := LoggerStartCalls(rec.cf, e.config, id, PyStr(logArg));
    srv.drones, srv.events := srv.drones[Int(id) := started], srv.events + calls;
    assert srv.Snap() == f0.(drones := f0.drones[Int(id) := started], events := f0.events + calls);
    raised := None;
  }

  method ServerSendTocVariableOn(srv: Server, id: int, variable: PyVal) returns (raised: Option<Exc>)
    modifies srv
    ensures Ran(srv.Snap(), raised) == ServerSendTocVariableAt(old(srv.Snap()), id, variable)
    ensures srv.Routing() == old(srv.Routing())
  {
    ghost var f0 := srv.Snap();
    var verdict := DroneConnected(srv.View(), Int(id));
    if verdict != Pass {
      raised := srv.Decline(verdict);
      return;
    }
    SendTocVariableConnected(f0, id, variable);
    var toc := SortedToc(srv.drones[Int(id)].logToc);
    var group := PyStr(variable);
    if group in Groups(toc) {
      var sent := Send(TocTopic(id, group), Names(TocNames(toc, group)));
      srv.events := srv.events + [sent];
      assert srv.Snap() == f0.(events := f0.events + [sent]);
    }
    raised := None;
  }

  method ServerSendTocOn(srv: Server, id: int, address: string) returns (raised: Option<Exc>)
    modifies srv
    ensures Ran(srv.Snap(), raised) == ServerSendTocAt(old(srv.Snap()), id, address)
    ensures srv.Routing() == old(srv.Routing())
  {
    ghost var f0 := srv.Snap();
    var verdict := DroneConnected(srv.View(), Int(id));
    if verdict != Pass {
      raised := srv.Decline(verdict);
      return;
    }
    assert ConnectedId(f0, id);
    var toc := SortedToc(srv.drones[Int(id)].logToc);
    var sent := [Printed(Value(Str(address))), Send(TableTopic(id), Json(toc))];
    srv.events := srv.events + sent;
    assert srv.Snap() == f0.(events := f0.events + sent);
    raised := None;
  }

  /** The callback: the loop over the received items, then the list in the logger's order. */
  method OnLogReceivedOn(srv: Server, id: int, logName: string, variables: seq<PyVal>, items: seq<(string, PyVal)>)
    returns (raised: Option<Exc>)
    modifies srv
    ensures Ran(srv.Snap(), raised) == OnLogReceivedAt(old(srv.Snap()), id, logName, variables, items)
    ensures srv.Routing() == old(srv.Routing())
  {
    var i := 0;
    while i < |items|
      invariant 0 <= i <= |items|
      invariant srv.Snap() == old(srv.Snap()).(events := old(srv.events) + VariableSends(id, logName, items[..i]))
      invariant srv.Routing() == old(srv.Routing())
    {
      assert items[..i + 1][..i] == items[..i];
      var (name, value) := items[i];
      srv.events := srv.events + [Send(VariableTopic(id, logName, name), Value(value))];
      i := i + 1;
    }
    assert items[..i] == items;
    var vs := ValuesOf(variables, items);
    if vs.None? {
      return Some(KeyError);
    }
    srv.events := srv.events + [Send(Join([IntToStr(id), logName], "/"), Values(vs.value))];
    raised := None;
  }
}
