/**
  The `Server` of `server.py`: the state every `osc_modules` handler reads
  and writes, the module table, and the order in which the server builds
  routes and stops.
 */
module FleetServer {
  import opened Wrappers
  import opened Registry
  import opened OscRouting
  import opened RouteTables
  import opened Fleet

  class Server {
    /** `self.modules`, keyed by `get_name()`. */
    var modules: map<string, OscModule>
    /** The keys of `self.modules` in the dict's order. */
    var moduleOrder: seq<string>
    /** Whether `_osc_server` is set, i.e. `run` has started the transport. */
    var serving: bool
    /** `self.drones`: the registry's keys in insertion order, and the records. */
    var ids: seq<PyVal>
    var drones: map<PyVal, Record>
    var clients: map<ClientKey, UdpClient>
    var lpsNodeNumber: int
    var lpsPositions: seq<Option<Position>>
    /** Calls made on external objects, in order. */
    var events: seq<Event>
    /** Error reports, in order. */
    var errors: seq<Report>
    var created: nat

    /** The registry lists its keys once each, and the module table's order lists its names once each. */
    ghost predicate Valid()
      reads this
    {
      Indexed(ids, drones) && Keyed(moduleOrder, modules)
    }

    /** The server's state as a value. */
    function Snap(): Fleet
      reads this
    {
      Fleet(modules.Keys, ids, drones, clients, lpsNodeNumber, lpsPositions, events, errors, created)
    }

    function View(): View
      reads this
    {
      ViewOf(Snap())
    }

    /** The fields no handler changes: the module table and the transport flag. */
    function Routing(): (map<string, OscModule>, seq<string>, bool)
      reads this
    {
      (modules, moduleOrder, serving)
    }

    /** `Server()`: no module, an empty registry and client table, eight LPS nodes without positions. */
    constructor ()
      ensures Valid()
      ensures modules == map[] && moduleOrder == [] && !serving
      ensures ids == [] && drones == map[] && clients == map[]
      ensures lpsNodeNumber == 8 && lpsPositions == seq(8, _ => None)
      ensures events == [] && errors == [] && created == 0
    {
      modules := map[];
      moduleOrder := [];
      serving := false;
      ids := [];
      drones := map[];
      clients := map[];
      lpsNodeNumber := 8;
      lpsPositions := seq(8, _ => None);
      events := [];
      errors := [];
      created := 0;
    }

    /** `get_module(name)`: the registered module, or `None`. */
    function GetModule(name: string): (m: Option<OscModule>)
      reads this
      ensures m.Some? <==> name in modules
      ensures m.Some? ==> m.value == modules[name]
      ensures Valid() ==> (m.Some? <==> name in moduleOrder)
    {
      if name in modules then Some(modules[name]) else None
    }

    /**
      `build_routes`: the six modules of the table, created fresh and keyed
      by name, then each attached to the dispatcher in the dict's order, so
      that each holds exactly the routes of its sub-topics under its base.
     */
    method BuildRoutes()
      requires Valid()
      modifies this
      ensures Valid()
      ensures moduleOrder == ModuleOrder() && Keyed(moduleOrder, modules)
      ensures forall i :: 0 <= i < |moduleOrder| ==>
        fresh(modules[moduleOrder[i]]) && Built(modules[moduleOrder[i]], FleetTable()[i])
      ensures forall i, j :: 0 <= i < j < |moduleOrder| ==> modules[moduleOrder[i]] != modules[moduleOrder[j]]
      ensures serving == old(serving) && ids == old(ids) && drones == old(drones) && clients == old(clients)
      ensures lpsNodeNumber == old(lpsNodeNumber) && lpsPositions == old(lpsPositions)
      ensures events == old(events) && errors == old(errors) && created == old(created)
    {
      var objs := NewModules();
      AttachAll(objs, FleetTable());
      ModuleOrderDistinct();
      moduleOrder := ModuleOrder();
      modules := Dict(moduleOrder, objs);
    }

    /**
      The part of `run` before it blocks: the transport is created and its
      thread started.
     */
    method Listen()
      requires Valid()
      modifies this
      ensures Valid()
      ensures serving && events == old(events) + [TransportStart]
      ensures modules == old(modules) && moduleOrder == old(moduleOrder)
      ensures ids == old(ids) && drones == old(drones) && clients == old(clients)
      ensures lpsNodeNumber == old(lpsNodeNumber) && lpsPositions == old(lpsPositions)
      ensures errors == old(errors) && created == old(created)
    {
      serving := true;
      events := events + [TransportStart];
    }

    /**
      `stop`: without a transport nothing happens; otherwise every module is
      stopped, in the dict's order, and then the transport is shut down.
     */
    method Stop()
      requires Valid()
      modifies this
      ensures Valid()
      ensures !old(serving) ==> events == old(events)
      ensures old(serving) ==> events == old(events) + StopCalls(moduleOrder) + [TransportShutdown]
      ensures old(serving) ==> forall k :: k in modules <==> ModuleStop(k) in events[|old(events)|..]
      ensures serving == old(serving) && modules == old(modules) && moduleOrder == old(moduleOrder)
      ensures ids == old(ids) && drones == old(drones) && clients == old(clients)
      ensures lpsNodeNumber == old(lpsNodeNumber) && lpsPositions == old(lpsPositions)
      ensures errors == old(errors) && created == old(created)
    {
      if !serving {
        return;
      }
      var i := 0;
      while i < |moduleOrder|
        invariant 0 <= i <= |moduleOrder|
        invariant events == old(events) + StopCalls(moduleOrder[..i])
        invariant serving == old(serving) && modules == old(modules) && moduleOrder == old(moduleOrder)
        invariant ids == old(ids) && drones == old(drones) && clients == old(clients)
        invariant lpsNodeNumber == old(lpsNodeNumber) && lpsPositions == old(lpsPositions)
        invariant errors == old(errors) && created == old(created)
      {
        StopCallsAppend(moduleOrder[..i], moduleOrder[i]);
        assert moduleOrder[..i + 1] == moduleOrder[..i] + [moduleOrder[i]];
        events := events + [ModuleStop(moduleOrder[i])];
        i := i + 1;
      }
      assert moduleOrder[..i] == moduleOrder;
      events := events + [TransportShutdown];
      StopCallsCover(old(events), moduleOrder);
    }

    /**
      `stop` as written: no module of this tree defines `stop`, so with a
      transport and at least one module the first `module.stop()` raises
      `AttributeError`: no module is stopped and the transport is not shut
      down. With no module the transport is shut down.
     */
    method StopAsWritten() returns (raised: Option<Exc>)
      modifies this
      ensures !old(serving) ==> raised.None? && events == old(events)
      ensures old(serving) && moduleOrder != [] ==> raised == Some(AttributeError) && events == old(events)
      ensures old(serving) && moduleOrder == [] ==> raised.None? && events == old(events) + [TransportShutdown]
      ensures serving == old(serving) && modules == old(modules) && moduleOrder == old(moduleOrder)
      ensures ids == old(ids) && drones == old(drones) && clients == old(clients)
      ensures lpsNodeNumber == old(lpsNodeNumber) && lpsPositions == old(lpsPositions)
      ensures errors == old(errors) && created == old(created)
    {
      if !serving {
        return None;
      }
      if moduleOrder != [] {
        return Some(AttributeError);
      }
      events := events + [TransportShutdown];
      raised := None;
    }

    /** A validator's refusal: a report is appended, or the exception is handed back. */
    method Decline(verdict: Verdict) returns (raised: Option<Exc>)
      requires verdict != Pass
      modifies this
      ensures Ran(Snap(), raised) == Refuse(old(Snap()), verdict)
      ensures Routing() == old(Routing())
    {
      match verdict
      case Reject(report) =>
        errors := errors + [report];
        raised := None;
      case Raise(exc) =>
        raised := Some(exc);
    }
  }

  /**
    A server whose routes are built and whose transport is up: `stop` as
    written raises `AttributeError` and never shuts the transport down.
   */
  method StopAfterBuildAsWritten() returns (raised: Option<Exc>, events: seq<Event>)
    ensures raised == Some(AttributeError) && TransportShutdown !in events
  {
    var srv := new Server();
    srv.BuildRoutes();
    srv.Listen();
    raised := srv.StopAsWritten();
    events := srv.events;
  }

  /**
    The keyword arguments each module class of `build_routes` hands on to
    `OscModule.__init__`, by the module's name: `ServerModule`,
    `CrazyflieModule` and `ParamModule` pass their `server` on as well.
   */
  function SuperKeywords(name: string): set<string> {
    if name == "SERVER" || name == "CRAZYFLIE" || name == "PARAM" then {"server", "base_topic", "debug"}
    else {"base_topic", "debug"}
  }

  /** The parameters `OscModule.__init__` declares. */
  function BaseParameters(): set<string> {
    {"base_topic", "debug"}
  }

  /**
    The dict display of `build_routes` as written: the modules are built in
    order, and the first whose `__init__` hands on a keyword that
    `OscModule.__init__` does not declare raises `TypeError`, so
    `self.modules` is never assigned.
   */
  function BuildOutcome(names: seq<string>): (r: Option<Exc>)
    ensures r.None? <==> forall i :: 0 <= i < |names| ==> SuperKeywords(names[i]) <= BaseParameters()
    ensures r.Some? ==> r.value == TypeError
  {
    if names == [] then None
    else if !(SuperKeywords(names[0]) <= BaseParameters()) then Some(TypeError)
    else
      var r := BuildOutcome(names[1..]);
      assert forall i :: 1 <= i < |names| ==> names[i] == names[1..][i - 1];
      r
  }

  /** As written, `build_routes` raises `TypeError` on its very first entry, `ServerModule`. */
  lemma BuildRoutesRaisesAsWritten()
    ensures !(SuperKeywords(ModuleOrder()[0]) <= BaseParameters())
    ensures BuildOutcome(ModuleOrder()) == Some(TypeError)
  {
    assert "server" in SuperKeywords("SERVER") && "server" !in BaseParameters();
  }

  /** The six module objects of `build_routes`, each on the base topic of its table entry. */
  method NewModules() returns (objs: seq<OscModule>)
    ensures |objs| == 6 == |FleetTable()|
    ensures forall i, j :: 0 <= i < j < |objs| ==> objs[i] != objs[j]
    ensures forall i :: 0 <= i < |objs| ==> fresh(objs[i])
    ensures forall i :: 0 <= i < |objs| ==>
      objs[i].baseTopic == FleetTable()[i].base && !objs[i].hasDispatcher && objs[i].routes == [] && objs[i].mapped == []
      && Leading(FleetTable()[i].subs) == |FleetTable()[i].subs|
  {
    FleetTableWellFormed();
    var server := new OscModule("/server");
    var client := new OscModule("/client");
    var crazyflie := new OscModule("/crazyflie");
    var lps := new OscModule("/lps");
    var log := new OscModule("/log");
    var param := new OscModule("/param");
    objs := [server, client, crazyflie, lps, log, param];
  }

  /** `order` lists the keys of `m`, each once: a dict with its insertion order. */
  ghost predicate Keyed<K(!new), V>(order: seq<K>, m: map<K, V>) {
    Distinct(order) && forall k :: k in order <==> k in m
  }

  /** A dict display `{names[0]: objs[0], ...}` whose keys are distinct. */
  function Dict<K(!new), V>(names: seq<K>, objs: seq<V>): (m: map<K, V>)
    requires |names| == |objs| && Distinct(names)
    ensures forall k :: k in m <==> k in names
    ensures forall i :: 0 <= i < |names| ==> m[names[i]] == objs[i]
  {
    map i | 0 <= i < |names| :: names[i] := objs[i]
  }

  /** The keys of the dict display of `build_routes`, in order. */
  function ModuleOrder(): seq<string> {
    ["SERVER", "CLIENT", "CRAZYFLIE", "LPS", "LOG", "PARAM"]
  }

  lemma ModuleOrderDistinct()
    ensures Distinct(ModuleOrder())
  {
  }

  /** Those keys are the names of the module table, so module `i` is built from entry `i`. */
  lemma ModuleOrderIsTable()
    ensures ModuleOrder() == SpecNames(FleetTable())
  {
  }

  /** A module attached to the dispatcher with every route of its table entry registered. */
  ghost predicate Built(m: OscModule, spec: ModuleSpec)
    reads m
  {
    m.hasDispatcher && m.baseTopic == spec.base && Leading(spec.subs) == |spec.subs|
    && m.routes == Templates(spec.base, spec.subs) && m.mapped == Registrations(m.routes)
  }

  /**
    The loop of `build_routes`: every module is called with the dispatcher,
    in order, and registers all of its routes.
   */
  method AttachAll(objs: seq<OscModule>, table: seq<ModuleSpec>)
    requires |objs| == |table|
    requires forall i, j :: 0 <= i < j < |objs| ==> objs[i] != objs[j]
    requires forall i :: 0 <= i < |objs| ==>
      objs[i].baseTopic == table[i].base && objs[i].routes == [] && objs[i].mapped == []
      && Leading(table[i].subs) == |table[i].subs|
    modifies objs
    ensures forall i :: 0 <= i < |objs| ==> Built(objs[i], table[i])
  {
    var i := 0;
    while i < |objs|
      invariant 0 <= i <= |objs|
      invariant forall j :: 0 <= j < |objs| ==> objs[j].baseTopic == table[j].base
      invariant forall j :: 0 <= j < i ==> Built(objs[j], table[j])
      invariant forall j :: i <= j < |objs| ==> objs[j].routes == [] && objs[j].mapped == []
    {
      var subs := table[i].subs;
      assert subs[..Leading(subs)] == subs;
      var _ := objs[i].Attach(subs);
      i := i + 1;
    }
  }

  /** One `stop()` call per module, in the given order. */
  function StopCalls(names: seq<string>): (es: seq<Event>)
    ensures |es| == |names|
    ensures forall i :: 0 <= i < |names| ==> es[i] == ModuleStop(names[i])
  {
    if names == [] then [] else [ModuleStop(names[0])] + StopCalls(names[1..])
  }

  /** The stop calls name exactly the listed modules. */
  lemma StopCallsCover(pre: seq<Event>, names: seq<string>)
    ensures forall k :: k in names <==> ModuleStop(k) in (pre + StopCalls(names) + [TransportShutdown])[|pre|..]
  {
    var es := StopCalls(names);
    assert (pre + es + [TransportShutdown])[|pre|..] == es + [TransportShutdown];
    forall k
      ensures k in names <==> ModuleStop(k) in es + [TransportShutdown]
    {
      if k in names {
        var i :| 0 <= i < |names| && names[i] == k;
        assert es[i] == ModuleStop(k);
      }
      if ModuleStop(k) in es {
        var i :| 0 <= i < |es| && es[i] == ModuleStop(k);
        assert names[i] == k;
      }
    }
  }

  lemma {:induction false} StopCallsAppend(names: seq<string>, n: string)
    ensures StopCalls(names + [n]) == StopCalls(names) + [ModuleStop(n)]
  {
    if names != [] {
      assert (names + [n])[1..] == names[1..] + [n];
      StopCallsAppend(names[1..], n);
    }
  }
}
