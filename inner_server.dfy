/**
  The `Server` of `inner_server.py`, the process the meta server spawns:
  the same shared state as the server of `server.py` (its handlers are
  modelled on `FleetServer.Server`), plus a `running` flag, a `run` that
  starts every module once the transport is up, and a `stop` that clears
  the flag before anything else.
 */
module InnerServing {
  import opened Wrappers
  import opened Registry
  import opened OscRouting
  import opened Fleet
  import opened FleetServer

  class Server {
    /** `self.modules`, keyed by name, and its keys in the dict's order. */
    var modules: map<string, OscModule>
    var moduleOrder: seq<string>
    /** Whether `_osc_server` is set. */
    var serving: bool
    /** `self.running`; absent before the first `run` or `stop`, which reads like `False`. */
    var running: bool
    /** The `(ip, port)` given to `run`, once it was called. */
    var address: Option<(PyVal, PyVal)>
    var ids: seq<PyVal>
    var drones: map<PyVal, Record>
    var clients: map<ClientKey, UdpClient>
    var lpsNodeNumber: int
    var lpsPositions: seq<Option<Position>>
    /** Calls made on the transport and on the modules, in order. */
    var events: seq<Event>

    /** The registry lists its keys once each, and the module table's order lists its names once each. */
    ghost predicate Valid()
      reads this
    {
      Indexed(ids, drones) && Keyed(moduleOrder, modules)
    }

    /** The fields `run` and `stop` leave alone. */
    function Shared(): (map<string, OscModule>, seq<string>, seq<PyVal>, map<PyVal, Record>, map<ClientKey, UdpClient>, int, seq<Option<Position>>)
      reads this
    {
      (modules, moduleOrder, ids, drones, clients, lpsNodeNumber, lpsPositions)
    }

    /** `Server()`: no module, no transport, an empty registry and client table, eight LPS nodes without positions. */
    constructor ()
      ensures Valid()
      ensures modules == map[] && moduleOrder == [] && !serving && !running && address == None
      ensures ids == [] && drones == map[] && clients == map[]
      ensures lpsNodeNumber == 8 && |lpsPositions| == 8 && forall i :: 0 <= i < 8 ==> lpsPositions[i] == None
      ensures events == []
    {
      modules := map[];
      moduleOrder := [];
      serving := false;
      running := false;
      address := None;
      ids := [];
      drones := map[];
      clients := map[];
      lpsNodeNumber := 8;
      lpsPositions := seq(8, _ => None);
      events := [];
    }

    /** `get_module(name)`: the registered module, or `None`. */
    function GetModule(name: string): (m: Option<OscModule>)
      reads this
      ensures m.Some? <==> name in modules
      ensures m.Some? ==> m.value == modules[name]
      ensures Valid() ==> (m.Some? <==> name in moduleOrder)
    {
      if name in modules then Some(modules[name]) else None
    }

    /**
      The part of `run` before it waits for `running` to drop: the flag is
      set, the transport is created on `(ip, port)` and its thread started,
      and only then is every module started, in the dict's order.
     */
    method Run(ip: PyVal, port: PyVal)
      requires Valid()
      modifies this
      ensures Valid()
      ensures running && serving && address == Some((ip, port))
      ensures events == old(events) + [TransportStart] + StartCalls(moduleOrder)
      ensures forall k :: k in modules <==> ModuleStart(k) in events[|old(events)| + 1..]
      ensures Shared() == old(Shared())
    {
      running := true;
      address := Some((ip, port));
      serving := true;
      events := events + [TransportStart];
      ghost var started := events;
      var i := 0;
      while i < |moduleOrder|
        invariant 0 <= i <= |moduleOrder|
        invariant events == started + StartCalls(moduleOrder[..i])
        invariant running && serving && address == Some((ip, port))
        invariant Shared() == old(Shared())
      {
        StartCallsStep(started, moduleOrder, i);
        events := events + [ModuleStart(moduleOrder[i])];
        i := i + 1;
      }
      assert moduleOrder[..i] == moduleOrder;
      StartCallsCover(started, moduleOrder);
    }

    /**
      `stop`: `running` is cleared in every case; then, only with a
      transport, every module is stopped in the dict's order and the
      transport is shut down last.
     */
    method Stop()
      requires Valid()
      modifies this
      ensures Valid()
      ensures !running && serving == old(serving) && address == old(address)
      ensures !old(serving) ==> events == old(events)
      ensures old(serving) ==> events == old(events) + StopCalls(moduleOrder) + [TransportShutdown]
      ensures old(serving) ==> forall k :: k in modules <==> ModuleStop(k) in events[|old(events)|..]
      ensures Shared() == old(Shared())
    {
      running := false;
      if !serving {
        return;
      }
      var i := 0;
      while i < |moduleOrder|
        invariant 0 <= i <= |moduleOrder|
        invariant events == old(events) + StopCalls(moduleOrder[..i])
        invariant !running && serving == old(serving) && address == old(address)
        invariant Shared() == old(Shared())
      {
        StopCallsAppend(moduleOrder[..i], moduleOrder[i]);
        assert moduleOrder[..i + 1] == moduleOrder[..i] + [moduleOrder[i]];
        events := events + [ModuleStop(moduleOrder[i])];
        i := i + 1;
      }
      assert moduleOrder[..i] == moduleOrder;
      events := events + [TransportShutdown];
      StopCallsCover(old(events), moduleOrder);
    }
  }

  /** One `start()` call per module, in the given order. */
  function StartCalls(names: seq<string>): (es: seq<Event>)
    ensures |es| == |names|
    ensures forall i :: 0 <= i < |names| ==> es[i] == ModuleStart(names[i])
  {
    if names == [] then [] else [ModuleStart(names[0])] + StartCalls(names[1..])
  }

  lemma {:induction false} StartCallsAppend(names: seq<string>, n: string)
    ensures StartCalls(names + [n]) == StartCalls(names) + [ModuleStart(n)]
  {
    if names != [] {
      assert (names + [n])[1..] == names[1..] + [n];
      StartCallsAppend(names[1..], n);
    }
  }

  lemma InFront(a: seq<Event>, b: seq<Event>, i: int)
    requires 0 <= i < |a|
    ensures (a + b)[i] == a[i]
  {
  }

  lemma Behind(a: seq<Event>, b: seq<Event>, i: int)
    requires 0 <= i < |b|
    ensures (a + b)[|a| + i] == b[i]
  {
  }

  /** The start calls name exactly the listed modules. */
  lemma StartCallsCover(pre: seq<Event>, names: seq<string>)
    ensures forall k :: k in names <==> ModuleStart(k) in (pre + StartCalls(names))[|pre|..]
  {
    var es := StartCalls(names);
    assert (pre + es)[|pre|..] == es;
    forall k
      ensures k in names <==> ModuleStart(k) in es
    {
      if k in names {
        var i :| 0 <= i < |names| && names[i] == k;
        assert es[i] == ModuleStart(k);
      }
      if ModuleStart(k) in es {
        var i :| 0 <= i < |es| && es[i] == ModuleStart(k);
        assert names[i] == k;
      }
    }
  }

  /** One more module started, after those before it. */
  lemma StartCallsStep(pre: seq<Event>, names: seq<string>, i: nat)
    requires i < |names|
    ensures pre + StartCalls(names[..i + 1]) == pre + StartCalls(names[..i]) + [ModuleStart(names[i])]
  {
    StartCallsAppend(names[..i], names[i]);
    assert names[..i + 1] == names[..i] + [names[i]];
  }

  /**
    A run followed by a stop: the transport comes up before any module
    starts, and goes down only after every module has stopped, each module
    starting before it stops.
   */
  lemma RunThenStop(names: seq<string>, es: seq<Event>)
    ensures var trace := es + [TransportStart] + StartCalls(names) + StopCalls(names) + [TransportShutdown];
      |trace| == |es| + 2 + 2 * |names|
      && trace[|es|] == TransportStart && trace[|trace| - 1] == TransportShutdown
      && forall i :: 0 <= i < |names| ==>
           trace[|es| + 1 + i] == ModuleStart(names[i]) && trace[|es| + 1 + |names| + i] == ModuleStop(names[i])
  {
    var a := StartCalls(names);
    var b := StopCalls(names);
    TraceLayout(es, a, b);
    assert |a| == |names| && |b| == |names|;
  }

  /** Where each part of `es + [start] + a + b + [shutdown]` sits. */
  lemma TraceLayout(es: seq<Event>, a: seq<Event>, b: seq<Event>)
    ensures var trace := es + [TransportStart] + a + b + [TransportShutdown];
      |trace| == |es| + 2 + |a| + |b|
      && trace[|es|] == TransportStart && trace[|trace| - 1] == TransportShutdown
      && (forall i :: 0 <= i < |a| ==> trace[|es| + 1 + i] == a[i])
      && (forall i :: 0 <= i < |b| ==> trace[|es| + 1 + |a| + i] == b[i])
  {
    var y := es + [TransportStart] + a;
    var x := y + b;
    forall i | 0 <= i < |a|
      ensures (x + [TransportShutdown])[|es| + 1 + i] == a[i]
    {
      InFront(x, [TransportShutdown], |es| + 1 + i);
      InFront(y, b, |es| + 1 + i);
      Behind(es + [TransportStart], a, i);
    }
    forall i | 0 <= i < |b|
      ensures (x + [TransportShutdown])[|es| + 1 + |a| + i] == b[i]
    {
      InFront(x, [TransportShutdown], |es| + 1 + |a| + i);
      Behind(y, b, i);
    }
  }
}
