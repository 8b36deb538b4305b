/**
  `LogModule` of the `osc_modules` tree: log configurations stored by name
  in a record's `logs` dict, variables added to them, and their start.
  There is no `started` flag in this tree. Each handler is given for one
  target of its drone selector.
 */
module LogHandlers {
  import opened Wrappers
  import opened Text
  import opened Registry
  import opened OscValidators
  import opened TocOrder
  import opened Fleet
  import opened FleetServer

  /** The record's `logs` dict, or an empty one when the record has none yet. */
  function LogsOrEmpty(logs: Option<map<PyVal, LogEntry>>): map<PyVal, LogEntry> {
    if logs.Some? then logs.value else map[]
  }

  /**
    `osc_add_log` for one target: after `drone_connected`, a new `LogConfig`
    is made and stored under `log_name` exactly as received, creating the
    `logs` dict on first use and replacing any log already stored under
    that name.
   */
  function AddLogAt(f: Fleet, id: int, logName: PyVal, period: PyVal): (r: Ran)
    ensures r.raised.None?
    ensures !ConnectedId(f, id) ==> OneReport(f, r.f)
    ensures ConnectedId(f, id) ==>
      var rec := f.drones[Int(id)];
      var config := LogConfig(f.created, logName, period);
      r.f == f.(drones := f.drones[Int(id) := rec.(logs := Some(LogsOrEmpty(rec.logs)[logName := Config(config)]))],
                created := f.created + 1)
  {
    var verdict := DroneConnected(ViewOf(f), Int(id));
    if verdict != Pass then Refuse(f, verdict)
    else
      var config := LogConfig(f.created, logName, period);
      var rec := f.drones[Int(id)];
      var logs := if rec.logs.None? then map[] else rec.logs.value;
      Ran(f.(drones := f.drones[Int(id) := rec.(logs := Some(logs[logName := Config(config)]))],
             created := f.created + 1), None)
  }

  /**
    After a log is added under a string name, `log_exists` finds it under
    that name, the registry keeps its keys, and every other log of the
    record is kept.
   */
  lemma AddLogThenExists(f: Fleet, id: int, name: string, period: PyVal)
    requires ConnectedId(f, id) && "LOG" in f.modules
    ensures var g := AddLogAt(f, id, Str(name), period).f;
      LogExists(ViewOf(g), Int(id), Str(name)) == Pass
      && g.ids == f.ids && g.drones.Keys == f.drones.Keys
      && forall k :: k in LogsOrEmpty(f.drones[Int(id)].logs) && k != Str(name) ==>
           g.drones[Int(id)].logs.value[k] == LogsOrEmpty(f.drones[Int(id)].logs)[k]
  {
    var g := AddLogAt(f, id, Str(name), period).f;
    assert Int(id) in g.drones && g.drones[Int(id)].connected;
    assert Str(name) in g.drones[Int(id)].logs.value;
  }

  /** The entry stored under the log name, as `logs[str(log_name)]` finds it once `log_exists` passed. */
  function LogAt(f: Fleet, id: int, logArg: PyVal): (e: LogEntry)
    requires LogExists(ViewOf(f), Int(id), logArg) == Pass
    ensures Int(id) in f.drones && f.drones[Int(id)].logs.Some?
    ensures Str(PyStr(logArg)) in f.drones[Int(id)].logs.value && e == f.drones[Int(id)].logs.value[Str(PyStr(logArg))]
  {
    f.drones[Int(id)].logs.value[Str(PyStr(logArg))]
  }

  /**
    `osc_log_add_variable` for one target: after `log_exists`, one
    `add_variable` call on the stored configuration. There is no check
    that the log was not started.
   */
  function LogAddVariableAt(f: Fleet, id: int, logArg: PyVal, variable: PyVal, varType: PyVal): (r: Ran)
    ensures r.raised.None?
    ensures LogExists(ViewOf(f), Int(id), logArg) != Pass ==> OneReport(f, r.f)
    ensures LogExists(ViewOf(f), Int(id), logArg) == Pass ==>
      r.f == f.(events := f.events + [ConfigAddVariable(LogAt(f, id, logArg).config, variable, varType)])
  {
    var verdict := LogExists(ViewOf(f), Int(id), logArg);
    if verdict != Pass then Refuse(f, verdict)
    else
      var log := f.drones[Int(id)].logs.value[Str(PyStr(logArg))];
      Ran(f.(events := f.events + [ConfigAddVariable(log.config, variable, varType)]), None)
  }

  /** The calls `osc_log_start` makes: the configuration is added to the drone, both callbacks are set, and it is started. */
  function StartCalls(cf: Handle, config: LogConfig): seq<Event> {
    [AddConfig(cf, config), PrintingCallback(config), ErrorCallback(config), ConfigStart(config)]
  }

  /**
    `osc_log_start` for one target: after `log_exists`, the configuration
    is added to the drone's log subsystem and started. Nothing records
    that it was started.
   */
  function LogStartAt(f: Fleet, id: int, logArg: PyVal): (r: Ran)
    ensures r.raised.None?
    ensures r.f.drones == f.drones && r.f.ids == f.ids
    ensures LogExists(ViewOf(f), Int(id), logArg) != Pass ==> OneReport(f, r.f)
    ensures LogExists(ViewOf(f), Int(id), logArg) == Pass ==>
      r.f == f.(events := f.events + StartCalls(f.drones[Int(id)].cf, LogAt(f, id, logArg).config))
  {
    var verdict := LogExists(ViewOf(f), Int(id), logArg);
    if verdict != Pass then Refuse(f, verdict)
    else
      var log := f.drones[Int(id)].logs.value[Str(PyStr(logArg))];
      Ran(f.(events := f.events + StartCalls(f.drones[Int(id)].cf, log.config)), None)
  }

  /** Starting twice adds the same configuration to the drone twice: the second start is not refused. */
  lemma StartTwice(f: Fleet, id: int, logArg: PyVal)
    requires LogExists(ViewOf(f), Int(id), logArg) == Pass
    ensures var once := LogStartAt(f, id, logArg).f;
      var twice := LogStartAt(once, id, logArg).f;
      var calls := StartCalls(f.drones[Int(id)].cf, LogAt(f, id, logArg).config);
      twice == f.(events := f.events + calls + calls)
  {
    var once := LogStartAt(f, id, logArg).f;
    assert ViewOf(once) == ViewOf(f);
  }

  /** The list `osc_send_toc` builds: one single-entry table per group, with the group's names sorted. */
  function OneEntryTocs(t: Toc): (r: seq<Toc>)
    ensures |r| == |t|
    ensures forall i :: 0 <= i < |t| ==> r[i] == [TocGroup(t[i].group, Sort(t[i].names))]
  {
    seq(|t|, i requires 0 <= i < |t| => [TocGroup(t[i].group, Sort(t[i].names))])
  }

  function Concat(ts: seq<Toc>): Toc {
    if ts == [] then [] else ts[0] + Concat(ts[1..])
  }

  /** Put together, the single-entry tables are the sorted table the parameter module publishes. */
  lemma {:induction false} OneEntryTocsFlatten(t: Toc)
    ensures Concat(OneEntryTocs(t)) == SortedToc(t)
  {
    if t != [] {
      OneEntryTocsFlatten(t[1..]);
      assert OneEntryTocs(t)[1..] == OneEntryTocs(t[1..]);
    }
  }

  /** One line printed per single-entry table. */
  function PrintedTocs(ts: seq<Toc>): (es: seq<Event>)
    ensures |es| == |ts|
    ensures forall i :: 0 <= i < |ts| ==> es[i] == Printed(Json(ts[i]))
  {
    seq(|ts|, i requires 0 <= i < |ts| => Printed(Json(ts[i])))
  }

  /** The `TOC` line printed before the tables. */
  function TocHeader(): Event {
    Printed(Value(Str("TOC")))
  }

  /**
    `osc_send_toc` of this tree for one target: after `drone_connected`, the
    header `TOC` and then the log table are printed, one group per line;
    nothing is sent.
   */
  function LogSendTocAt(f: Fleet, id: int): (r: Ran)
    ensures r.raised.None?
    ensures !ConnectedId(f, id) ==> OneReport(f, r.f)
    ensures ConnectedId(f, id) ==>
      r.f == f.(events := f.events + [TocHeader()] + PrintedTocs(OneEntryTocs(f.drones[Int(id)].logToc)))
  {
    var verdict := DroneConnected(ViewOf(f), Int(id));
    if verdict != Pass then Refuse(f, verdict)
    else Ran(f.(events := f.events + [TocHeader()] + PrintedTocs(OneEntryTocs(f.drones[Int(id)].logToc))), None)
  }

  /** This tree's `osc_send_toc` publishes nothing: every call it adds is a printed line. */
  lemma LogSendTocPrintsOnly(f: Fleet, id: int)
    requires ConnectedId(f, id)
    ensures var g := LogSendTocAt(f, id).f;
      |g.events| > |f.events| && g.events[..|f.events|] == f.events
      && forall e :: e in g.events[|f.events|..] ==> e.Printed? && !e.Send?
  {
    var tocs := OneEntryTocs(f.drones[Int(id)].logToc);
    TocsPrinted(tocs);
    AppendedPrinted(f.events, PrintedTocs(tocs));
  }

  lemma TocsPrinted(tocs: seq<Toc>)
    ensures forall e :: e in PrintedTocs(tocs) ==> e.Printed?
  {
  }

  lemma AppendedPrinted(pre: seq<Event>, lines: seq<Event>)
    requires forall e :: e in lines ==> e.Printed?
    ensures var all := pre + [TocHeader()] + lines;
      |all| > |pre| && all[..|pre|] == pre && forall e :: e in all[|pre|..] ==> e.Printed? && !e.Send?
  {
    assert (pre + [TocHeader()] + lines)[|pre|..] == [TocHeader()] + lines;
  }

  // ---------------------------------------------------------------------
  // The same handlers as methods on the server

  lemma AddLogPasses(f: Fleet, id: int, logName: PyVal, period: PyVal)
    requires DroneConnected(ViewOf(f), Int(id)) == Pass
    ensures Int(id) in f.drones
    ensures var rec := f.drones[Int(id)];
      AddLogAt(f, id, logName, period)
        == Ran(f.(drones := f.drones[Int(id) := rec.(logs := Some(LogsOrEmpty(rec.logs)[logName := Config(LogConfig(f.created, logName, period))]))],
                  created := f.created + 1), None)
  {
  }

  method AddLogOn(srv: Server, id: int, logName: PyVal, period: PyVal) returns (raised: Option<Exc>)
    modifies srv
    ensures Ran(srv.Snap(), raised) == AddLogAt(old(srv.Snap()), id, logName, period)
    ensures srv.Routing() == old(srv.Routing())
  {
    ghost var f0 := srv.Snap();
    var verdict := DroneConnected(srv.View(), Int(id));
    if verdict != Pass {
      raised := srv.Decline(verdict);
      return;
    }
    AddLogPasses(f0, id, logName, period);
    var config := LogConfig(srv.created, logName, period);
    var rec := srv.drones[Int(id)];
    var logs := LogsOrEmpty(rec.logs);
    srv.drones, srv.created := srv.drones[Int(id) := rec.(logs := Some(logs[logName := Config(config)]))], srv.created + 1;
    raised := None;
  }

  method LogAddVariableOn(srv: Server, id: int, logArg: PyVal, variable: PyVal, varType: PyVal) returns (raised: Option<Exc>)
    modifies srv
    ensures Ran(srv.Snap(), raised) == LogAddVariableAt(old(srv.Snap()), id, logArg, variable, varType)
    ensures srv.Routing() == old(srv.Routing())
  {
    var verdict := LogExists(srv.View(), Int(id), logArg);
    if verdict != Pass {
      raised := srv.Decline(verdict);
      return;
    }
    var log := srv.drones[Int(id)].logs.value[Str(PyStr(logArg))];
    srv.events := srv.events + [ConfigAddVariable(log.config, variable, varType)];
    raised := None;
  }

  method LogStartOn(srv: Server, id: int, logArg: PyVal) returns (raised: Option<Exc>)
    modifies srv
    ensures Ran(srv.Snap(), raised) == LogStartAt(old(srv.Snap()), id, logArg)
    ensures srv.Routing() == old(srv.Routing())
  {
    var verdict := LogExists(srv.View(), Int(id), logArg);
    if verdict != Pass {
      raised := srv.Decline(verdict);
      return;
    }
    var log := srv.drones[Int(id)].logs.value[Str(PyStr(logArg))];
    srv.events := srv.events + StartCalls(srv.drones[Int(id)].cf, log.config);
    raised := None;
  }

  /** `osc_send_toc`: one single-entry table printed per line. */
  method LogSendTocOn(srv: Server, id: int) returns (raised: Option<Exc>)
    modifies srv
    ensures Ran(srv.Snap(), raised) == LogSendTocAt(old(srv.Snap()), id)
    ensures srv.Routing() == old(srv.Routing())
  {
    ghost var f0 := srv.Snap();
    var verdict := DroneConnected(srv.View(), Int(id));
    if verdict != Pass {
      raised := srv.Decline(verdict);
      return;
    }
    assert ConnectedId(f0, id);
    srv.events := srv.events + [TocHeader()];
    PrintTocs(srv, OneEntryTocs(srv.drones[Int(id)].logToc));
    raised := None;
  }

  /** The loop of `osc_send_toc`: `print(t)` for each table, in order. */
  method PrintTocs(srv: Server, tocs: seq<Toc>)
    modifies srv
    ensures srv.Snap() == old(srv.Snap()).(events := old(srv.events) + PrintedTocs(tocs))
    ensures srv.Routing() == old(srv.Routing())
  {
    var i := 0;
    while i < |tocs|
      invariant 0 <= i <= |tocs|
      invariant srv.Snap() == old(srv.Snap()).(events := old(srv.events) + PrintedTocs(tocs[..i]))
      invariant srv.Routing() == old(srv.Routing())
    {
      assert PrintedTocs(tocs[..i + 1]) == PrintedTocs(tocs[..i]) + [Printed(Json(tocs[i]))];
      srv.events := srv.events + [Printed(Json(tocs[i]))];
      i := i + 1;
    }
    assert tocs[..i] == tocs;
  }
}
