/**
  `CrazyflieModule` of the `osc_modules` tree: adding a drone to the
  registry under its integer id, the three connection callbacks that
  `osc_add_drone` installs, sending a goal, and removing a drone. The
  fan-out handler `osc_update_lps_pos` is in `FanOut`.
 */
module CrazyflieHandlers {
  import opened Wrappers
  import opened Text
  import opened Registry
  import opened OscValidators
  import opened Fleet
  import opened FleetServer
  import opened ParamHandlers
  import opened FanOut

  /**
    The record `osc_add_drone` stores for an id it has not seen: the URL
    of the message, a new radio handle, not connected, no `logs` entry,
    and tables of contents that the radio library has not fetched yet.
   */
  function NewRecord(url: PyVal, cf: Handle): Record {
    Record(url, cf, false, None, [], [])
  }

  /**
    The first half of `osc_add_drone`: for an absent key, the record is
    stored, the three callbacks are installed on its handle and, with the
    PARAM module present, `add_param_cb` is asked for the new id; a
    present key is left alone.
   */
  function Admit(f: Fleet, key: PyVal, url: PyVal): (g: Fleet)
    ensures key in g.drones
    ensures key in f.drones ==> g == f
    ensures key !in f.drones ==>
      g == f.(ids := f.ids + [key], drones := f.drones[key := NewRecord(url, Handle(f.created))],
              events := f.events + [ConnectCallbacks(Handle(f.created))], created := f.created + 1)
  {
    if key in f.drones then f
    else
      var cf := Handle(f.created);
      var g := f.(ids := Put(f.ids, key, f.drones), drones := f.drones[key := NewRecord(url, cf)],
                  events := f.events + [ConnectCallbacks(cf)], created := f.created + 1);
      if "PARAM" in g.modules then AddParamCb(g, key) else g
  }

  /**
    `osc_add_drone`: `int(drone_id)` (a malformed id raises `ValueError`),
    the record made if absent, then `open_link` with the message's URL
    unless the record is connected, in which case an error is reported.
   */
  function AddDroneAt(f: Fleet, droneArg: PyVal, url: PyVal): (r: Ran)
    ensures r.raised.Some? <==> ToInt(droneArg).None?
    ensures r.raised.Some? ==> r == Ran(f, Some(ValueError))
  {
    match ToInt(droneArg)
    case None => Ran(f, Some(ValueError))
    case Some(id) =>
      var g := Admit(f, Int(id), url);
      var rec := g.drones[Int(id)];
      if !rec.connected then Ran(g.(events := g.events + [OpenLink(rec.cf, url)]), None)
      else Ran(g.(errors := g.errors + [AlreadyConnected(Int(id))]), None)
  }

  /**
    Adding a drone under an id not yet in the registry: the new record
    goes to the end of the registry with a fresh handle, the callbacks are
    installed, no parameter callback is registered (the record is not
    connected yet) and the link is opened with the given URL.
   */
  lemma AddNewDrone(f: Fleet, n: int, url: PyVal)
    requires Int(n) !in f.drones
    ensures var cf := Handle(f.created);
      AddDroneAt(f, Int(n), url) == Ran(f.(ids := f.ids + [Int(n)], drones := f.drones[Int(n) := NewRecord(url, cf)],
        events := f.events + [ConnectCallbacks(cf), OpenLink(cf, url)], created := f.created + 1), None)
  {
    var cf := Handle(f.created);
    assert f.events + [ConnectCallbacks(cf)] + [OpenLink(cf, url)] == f.events + [ConnectCallbacks(cf), OpenLink(cf, url)];
  }

  /**
    Adding an id already in the registry never replaces its record or its
    handle: an unconnected one gets `open_link` with the new URL, a
    connected one only an "already added and connected" report.
   */
  lemma AddKnownDrone(f: Fleet, n: int, url: PyVal)
    requires Int(n) in f.drones
    ensures var r := AddDroneAt(f, Int(n), url);
      var rec := f.drones[Int(n)];
      r.raised.None? && r.f.drones == f.drones && r.f.ids == f.ids && r.f.created == f.created
      && (!rec.connected ==> r.f == f.(events := f.events + [OpenLink(rec.cf, url)]))
      && (rec.connected ==> r.f == f.(errors := f.errors + [AlreadyConnected(Int(n))]))
  {
  }

  /** Adding the same id twice leaves the registry as the first add made it. */
  lemma AddTwiceKeepsRecord(f: Fleet, n: int, url: PyVal, url2: PyVal)
    ensures var once := AddDroneAt(f, Int(n), url).f;
      var twice := AddDroneAt(once, Int(n), url2).f;
      twice.drones == once.drones && twice.ids == once.ids
  {
    var once := AddDroneAt(f, Int(n), url).f;
    AddKnownDrone(once, n, url2);
  }

  /** `osc_add_drone` keeps the registry's order a list of its keys, each once. */
  lemma AddDroneIndexed(f: Fleet, droneArg: PyVal, url: PyVal)
    requires Indexed(f.ids, f.drones)
    ensures var g := AddDroneAt(f, droneArg, url).f;
      Indexed(g.ids, g.drones)
  {
    if ToInt(droneArg).Some? {
      var k := Int(ToInt(droneArg).value);
      var a := Admit(f, k, url);
      if k !in f.drones {
        PutIndexed(f.ids, f.drones, k, NewRecord(url, Handle(f.created)));
        assert a.ids == Put(f.ids, k, f.drones) && a.drones == f.drones[k := NewRecord(url, Handle(f.created))];
      }
      var g := AddDroneAt(f, droneArg, url).f;
      assert g.ids == a.ids && g.drones == a.drones;
    }
  }

  /** The parameter name the connection callback sets. */
  function PosSetName(): string {
    "flightmode.posSet"
  }

  /** The state the connection callback leaves before any position is pushed: connected, `posSet` set. */
  function Connected(f: Fleet, key: PyVal): (g: Fleet)
    requires key in f.drones
    ensures key in g.drones && g.drones[key] == f.drones[key].(connected := true)
    ensures forall k :: k in f.drones && k != key ==> k in g.drones && g.drones[k] == f.drones[k]
    ensures g.drones.Keys == f.drones.Keys && g.(drones := f.drones, events := f.events) == f
    ensures g.events == f.events + [SetParamValue(f.drones[key].cf, "flightmode.posSet", "1")]
  {
    var rec := f.drones[key];
    f.(drones := f.drones[key := rec.(connected := true)],
       events := f.events + [SetParamValue(rec.cf, PosSetName(), "1")])
  }

  /**
    The connection callback of drone `id`: the record is marked connected
    (`KeyError` if it was removed meanwhile), `flightmode.posSet` is set to
    `1`, and with the LPS module present the positions of all nodes are
    pushed to that drone through `osc_update_lps_pos`, with the selector
    read through `str()` as `FanOut` does.
   */
  function OnConnectionAt(f: Fleet, id: int): (r: Ran)
    ensures Int(id) !in f.drones ==> r == Ran(f, Some(KeyError))
  {
    if Int(id) !in f.drones then Ran(f, Some(KeyError))
    else
      var g := Connected(f, Int(id));
      if "LPS" in g.modules then UpdateLpsPos(g, Int(id), Str("*")) else Ran(g, None)
  }

  /**
    For a drone in the registry, the connection callback raises nothing,
    marks the record connected and changes nothing else but the calls and
    reports; without the LPS module its only call is the `posSet` one.
   */
  lemma ConnectionMarksConnected(f: Fleet, id: int)
    requires Int(id) in f.drones
    ensures var r := OnConnectionAt(f, id);
      r.raised.None? && Appends(Connected(f, Int(id)), r.f)
      && ("LPS" !in f.modules ==> r.f == Connected(f, Int(id)))
  {
    var g := Connected(f, Int(id));
    if "LPS" in g.modules {
      UpdateLpsPosAppends(g, Int(id), Str("*"));
      var v := ViewOf(g);
      if OscRequires(v, "LPS") == Pass && OscRequires(v, "PARAM") == Pass && "CRAZYFLIE" in v.modules {
        SingleSelector(id);
        assert OscDronePlanFixed(v, Int(id)) == Targets([Target(id)]);
      }
    }
  }

  /** The connection-failure callback of the drone stored under `key` only reports. */
  function OnConnectionFailedAt(f: Fleet, key: PyVal, message: string): (g: Fleet)
    ensures OneReport(f, g) && g.errors[|f.errors|] == ConnectionFailed(key, message)
  {
    f.(errors := f.errors + [ConnectionFailed(key, message)])
  }

  /**
    The disconnection callback: the report comes first, then the record
    is marked not connected (`KeyError` if it was removed meanwhile).
   */
  function OnDisconnectionAt(f: Fleet, key: PyVal): (r: Ran)
    ensures r.f.errors == f.errors + [Disconnected(key)]
    ensures r.raised.Some? <==> key !in f.drones
    ensures key in f.drones ==>
      r.f == f.(drones := f.drones[key := f.drones[key].(connected := false)], errors := r.f.errors)
  {
    var g := f.(errors := f.errors + [Disconnected(key)]);
    if key !in g.drones then Ran(g, Some(KeyError))
    else Ran(g.(drones := g.drones[key := g.drones[key].(connected := false)]), None)
  }

  /**
    A connection followed by a disconnection leaves the record as it was
    but not connected; the registry's keys and order are unchanged.
   */
  lemma ConnectThenDisconnect(f: Fleet, id: int)
    requires Int(id) in f.drones
    ensures var g := OnDisconnectionAt(OnConnectionAt(f, id).f, Int(id)).f;
      g.drones == f.drones[Int(id) := f.drones[Int(id)].(connected := false)] && g.ids == f.ids
  {
    ConnectionMarksConnected(f, id);
  }

  /**
    `osc_goal` behind `drone_connected`: one setpoint sent to the drone,
    with the arguments in the order `(y, x, yaw, z)`; nothing is stored.
   */
  function GoalAt(f: Fleet, droneArg: PyVal, x: PyVal, y: PyVal, z: PyVal, yaw: PyVal): (r: Ran)
    ensures r.f.drones == f.drones && r.f.ids == f.ids
    ensures DroneConnected(ViewOf(f), droneArg) != Pass ==> r == Refuse(f, DroneConnected(ViewOf(f), droneArg))
    ensures DroneConnected(ViewOf(f), droneArg) == Pass ==>
      r == Ran(f.(events := f.events + [SendSetpoint(f.drones[Key(droneArg)].cf, y, x, yaw, z)]), None)
  {
    var verdict := DroneConnected(ViewOf(f), droneArg);
    if verdict != Pass then Refuse(f, verdict)
    else
      var rec := f.drones[Int(ToInt(droneArg).value)];
      Ran(f.(events := f.events + [SendSetpoint(rec.cf, y, x, yaw, z)]), None)
  }

  /** The calls `osc_remove_drone` makes: `close_link` only on a connected record. */
  function CloseCalls(rec: Record): (es: seq<Event>)
    ensures es != [] <==> rec.connected
    ensures forall e :: e in es ==> e == CloseLink(rec.cf)
  {
    if rec.connected then [CloseLink(rec.cf)] else []
  }

  /**
    `osc_remove_drone` behind `drone_exists`: the link is closed if the
    record is connected, then the record is deleted, the other records and
    their order being kept.
   */
  function RemoveDroneAt(f: Fleet, droneArg: PyVal): (r: Ran)
    ensures DroneExists(ViewOf(f), droneArg) != Pass ==> r == Refuse(f, DroneExists(ViewOf(f), droneArg))
    ensures DroneExists(ViewOf(f), droneArg) == Pass ==>
      var k := Key(droneArg);
      r.raised.None? && k !in r.f.drones
      && r.f.events == f.events + CloseCalls(f.drones[k]) && r.f.errors == f.errors
      && forall j :: j in f.drones && j != k ==> j in r.f.drones && r.f.drones[j] == f.drones[j]
  {
    var verdict := DroneExists(ViewOf(f), droneArg);
    if verdict != Pass then Refuse(f, verdict)
    else
      var k := Int(ToInt(droneArg).value);
      Ran(f.(ids := Without(f.ids, k), drones := f.drones - {k}, events := f.events + CloseCalls(f.drones[k])), None)
  }

  /** Removing keeps the registry's order a list of its keys, each once. */
  lemma RemoveDroneIndexed(f: Fleet, droneArg: PyVal)
    requires Indexed(f.ids, f.drones)
    ensures var g := RemoveDroneAt(f, droneArg).f;
      Indexed(g.ids, g.drones)
  {
    if DroneExists(ViewOf(f), droneArg) == Pass {
      WithoutIndexed(f.ids, f.drones, Key(droneArg));
    }
  }

  lemma {:induction false} WithoutAppended(ids: seq<PyVal>, k: PyVal)
    requires k !in ids
    ensures Without(ids + [k], k) == ids
  {
    if ids != [] {
      assert (ids + [k])[1..] == ids[1..] + [k];
      WithoutAppended(ids[1..], k);
      assert ids == [ids[0]] + ids[1..];
    } else {
      assert [k][1..] == [];
    }
  }

  /**
    Adding a drone under a new id and removing it again gives back the
    registry, keys, records and order, that there was before; what remains
    is the handle's callbacks and the opened link.
   */
  lemma AddThenRemove(f: Fleet, n: int, url: PyVal)
    requires "CRAZYFLIE" in f.modules && Indexed(f.ids, f.drones) && Int(n) !in f.drones
    ensures var cf := Handle(f.created);
      var g := RemoveDroneAt(AddDroneAt(f, Int(n), url).f, Int(n)).f;
      g.drones == f.drones && g.ids == f.ids
      && g.events == f.events + [ConnectCallbacks(cf), OpenLink(cf, url)]
  {
    AddNewDrone(f, n, url);
    var g := AddDroneAt(f, Int(n), url).f;
    assert DroneExists(ViewOf(g), Int(n)) == Pass;
    WithoutAppended(f.ids, Int(n));
    assert g.drones - {Int(n)} == f.drones;
  }

  // ---------------------------------------------------------------------
  // The same handlers as methods on the server

  method AddDroneOn(srv: Server, droneArg: PyVal, url: PyVal) returns (raised: Option<Exc>)
    modifies srv
    ensures Ran(srv.Snap(), raised) == AddDroneAt(old(srv.Snap()), droneArg, url)
    ensures srv.Routing() == old(srv.Routing())
  {
    var n := ToInt(droneArg);
    if n.None? {
      return Some(ValueError);
    }
    var key := Int(n.value);
    AdmitOn(srv, key, url);
    var rec := srv.drones[key];
    if !rec.connected {
      srv.events := srv.events + [OpenLink(rec.cf, url)];
    } else {
      srv.errors := srv.errors + [AlreadyConnected(key)];
    }
    raised := None;
  }

  method AdmitOn(srv: Server, key: PyVal, url: PyVal)
    modifies srv
    ensures srv.Snap() == Admit(old(srv.Snap()), key, url)
    ensures srv.Routing() == old(srv.Routing())
  {
    if key in srv.drones {
      return;
    }
    var cf := Handle(srv.created);
    srv.ids, srv.drones, srv.events, srv.created :=
      Put(srv.ids, key, srv.drones), srv.drones[key := NewRecord(url, cf)], srv.events + [ConnectCallbacks(cf)], srv.created + 1;
    if "PARAM" in srv.modules {
      AddParamCbOn(srv, key);
    }
  }

  method OnConnectionOn(srv: Server, id: int) returns (raised: Option<Exc>)
    modifies srv
    ensures Ran(srv.Snap(), raised) == OnConnectionAt(old(srv.Snap()), id)
    ensures srv.Routing() == old(srv.Routing())
  {
    if Int(id) !in srv.drones {
      return Some(KeyError);
    }
    MarkConnectedOn(srv, Int(id));
    if "LPS" in srv.modules {
      raised := RunUpdateLpsPos(srv, Int(id), Str("*"));
    } else {
      raised := None;
    }
  }

  method MarkConnectedOn(srv: Server, key: PyVal)
    requires key in srv.drones
    modifies srv
    ensures srv.Snap() == Connected(old(srv.Snap()), key)
    ensures srv.Routing() == old(srv.Routing())
  {
    var rec := srv.drones[key];
    srv.drones, srv.events := srv.drones[key := rec.(connected := true)], srv.events + [SetParamValue(rec.cf, PosSetName(), "1")];
  }

  method OnConnectionFailedOn(srv: Server, key: PyVal, message: string)
    modifies srv
    ensures srv.Snap() == OnConnectionFailedAt(old(srv.Snap()), key, message)
    ensures srv.Routing() == old(srv.Routing())
  {
    srv.errors := srv.errors + [ConnectionFailed(key, message)];
  }

  method OnDisconnectionOn(srv: Server, key: PyVal) returns (raised: Option<Exc>)
    modifies srv
    ensures Ran(srv.Snap(), raised) == OnDisconnectionAt(old(srv.Snap()), key)
    ensures srv.Routing() == old(srv.Routing())
  {
    srv.errors := srv.errors + [Disconnected(key)];
    if key !in srv.drones {
      return Some(KeyError);
    }
    srv.drones := srv.drones[key := srv.drones[key].(connected := false)];
    raised := None;
  }

  method GoalOn(srv: Server, droneArg: PyVal, x: PyVal, y: PyVal, z: PyVal, yaw: PyVal) returns (raised: Option<Exc>)
    modifies srv
    ensures Ran(srv.Snap(), raised) == GoalAt(old(srv.Snap()), droneArg, x, y, z, yaw)
    ensures srv.Routing() == old(srv.Routing())
  {
    var verdict := DroneConnected(srv.View(), droneArg);
    if verdict != Pass {
      raised := srv.Decline(verdict);
      return;
    }
    var rec := srv.drones[Int(ToInt(droneArg).value)];
    srv.events := srv.events + [SendSetpoint(rec.cf, y, x, yaw, z)];
    raised := None;
  }

  method RemoveDroneOn(srv: Server, droneArg: PyVal) returns (raised: Option<Exc>)
    modifies srv
    ensures Ran(srv.Snap(), raised) == RemoveDroneAt(old(srv.Snap()), droneArg)
    ensures srv.Routing() == old(srv.Routing())
  {
    var verdict := DroneExists(srv.View(), droneArg);
    if verdict != Pass {
      raised := srv.Decline(verdict);
      return;
    }
    var k := Int(ToInt(droneArg).value);
    srv.ids, srv.drones, srv.events := Without(srv.ids, k), srv.drones - {k}, srv.events + CloseCalls(srv.drones[k]);
    raised := None;
  }
}
