/**
  The older `CrazyflieModule` (`Crazyflie.py`): the same registry of drones,
  but keyed by the `{drone_id}` path segment as it arrives, a string that is
  never converted to an int, and with the checks written inline instead of
  as decorators. Its connection callback only sets `flightmode.posSet`; the
  failure and disconnection callbacks are those of `CrazyflieHandlers`,
  applied to the string key.
 */
module LegacyCrazyflie {
  import opened Wrappers
  import opened Text
  import opened Registry
  import opened Fleet
  import opened FleetServer
  import opened CrazyflieHandlers

  /** The registry key of a path segment: the segment itself. */
  function LegacyKey(droneId: string): PyVal {
    Str(droneId)
  }

  /**
    The first half of `osc_add_drone`: for an absent key the record is
    stored at the end of the order and its three callbacks are installed;
    a present key is left alone.
   */
  function LegacyAdmit(f: Fleet, droneId: string, url: PyVal): (g: Fleet)
    ensures LegacyKey(droneId) in g.drones
    ensures LegacyKey(droneId) in f.drones ==> g == f
    ensures LegacyKey(droneId) !in f.drones ==>
      g.drones == f.drones[LegacyKey(droneId) := NewRecord(url, Handle(f.created))]
      && g.ids == f.ids + [LegacyKey(droneId)]
  {
    var k := LegacyKey(droneId);
    if k in f.drones then f
    else
      var cf := Handle(f.created);
      f.(ids := Put(f.ids, k, f.drones), drones := f.drones[k := NewRecord(url, cf)],
         events := f.events + [ConnectCallbacks(cf)], created := f.created + 1)
  }

  /**
    `osc_add_drone`: the record made if absent, then `open_link` with the
    message's URL unless the record is connected, in which case an
    "already added and connected" error is reported. Nothing raises.
   */
  function LegacyAddDroneAt(f: Fleet, droneId: string, url: PyVal): (g: Fleet)
    ensures LegacyKey(droneId) in g.drones && g.modules == f.modules
  {
    var k := LegacyKey(droneId);
    var h := LegacyAdmit(f, droneId, url);
    var rec := h.drones[k];
    if !rec.connected then h.(events := h.events + [OpenLink(rec.cf, url)])
    else h.(errors := h.errors + [AlreadyConnected(k)])
  }

  /** For a new id: one record with a fresh handle, its callbacks, and the link opened on the given URL. */
  lemma LegacyAddNewDrone(f: Fleet, droneId: string, url: PyVal)
    requires LegacyKey(droneId) !in f.drones
    ensures var cf := Handle(f.created);
      var k := LegacyKey(droneId);
      LegacyAddDroneAt(f, droneId, url) == f.(ids := f.ids + [k], drones := f.drones[k := NewRecord(url, cf)],
        events := f.events + [ConnectCallbacks(cf), OpenLink(cf, url)], created := f.created + 1)
  {
    var cf := Handle(f.created);
    assert f.events + [ConnectCallbacks(cf)] + [OpenLink(cf, url)] == f.events + [ConnectCallbacks(cf), OpenLink(cf, url)];
  }

  /**
    Adding an id already present never replaces its record: an unconnected
    one gets `open_link` with the new URL, a connected one only a report.
   */
  lemma LegacyAddKnownDrone(f: Fleet, droneId: string, url: PyVal)
    requires LegacyKey(droneId) in f.drones
    ensures var g := LegacyAddDroneAt(f, droneId, url);
      var rec := f.drones[LegacyKey(droneId)];
      (!rec.connected ==> g == f.(events := f.events + [OpenLink(rec.cf, url)]))
      && (rec.connected ==> g == f.(errors := f.errors + [AlreadyConnected(LegacyKey(droneId))]))
  {
  }

  /** `osc_add_drone` keeps the registry's order a list of its keys, each once. */
  lemma LegacyAddDroneIndexed(f: Fleet, droneId: string, url: PyVal)
    requires Indexed(f.ids, f.drones)
    ensures var g := LegacyAddDroneAt(f, droneId, url);
      Indexed(g.ids, g.drones)
  {
    if LegacyKey(droneId) !in f.drones {
      PutIndexed(f.ids, f.drones, LegacyKey(droneId), NewRecord(url, Handle(f.created)));
    }
  }

  /**
    The path segment is the key: `/1/add` and `/01/add` make two records,
    where `osc_add_drone` of the newer module, which converts with `int()`,
    makes one and answers the second with `open_link` on the same handle.
   */
  lemma LegacyKeysAreRaw(f: Fleet, url: PyVal)
    requires "CRAZYFLIE" in f.modules && Str("1") !in f.drones && Str("01") !in f.drones && Int(1) !in f.drones
    ensures var g := LegacyAddDroneAt(LegacyAddDroneAt(f, "1", url), "01", url);
      Str("1") in g.drones && Str("01") in g.drones && g.drones[Str("1")].cf != g.drones[Str("01")].cf
    ensures var g := AddDroneAt(AddDroneAt(f, Str("1"), url).f, Str("01"), url).f;
      Int(1) in g.drones && g.created == f.created + 1
  {
    LegacyTwoHandles(f, url);
    NewerOneHandle(f, url);
  }

  lemma LegacyTwoHandles(f: Fleet, url: PyVal)
    requires Str("1") !in f.drones && Str("01") !in f.drones
    ensures var g := LegacyAddDroneAt(LegacyAddDroneAt(f, "1", url), "01", url);
      Str("1") in g.drones && Str("01") in g.drones && g.drones[Str("1")].cf != g.drones[Str("01")].cf
  {
    LegacyAddNewDrone(f, "1", url);
    var once := LegacyAddDroneAt(f, "1", url);
    assert Str("01") != Str("1") by {
      assert "01"[0] != "1"[0];
    }
    LegacyAddNewDrone(once, "01", url);
  }

  lemma NewerOneHandle(f: Fleet, url: PyVal)
    requires "CRAZYFLIE" in f.modules && Int(1) !in f.drones
    ensures var g := AddDroneAt(AddDroneAt(f, Str("1"), url).f, Str("01"), url).f;
      Int(1) in g.drones && g.created == f.created + 1
  {
    OneAndZeroOne();
    AddNewDrone(f, 1, url);
    AddKnownDrone(AddDroneAt(f, Str("1"), url).f, 1, url);
  }

  /** `int("1")` and `int("01")` are both 1. */
  lemma OneAndZeroOne()
    ensures ParseInt("1") == Some(1) && ParseInt("01") == Some(1)
  {
    ParseOne();
    ParseZeroOne();
  }

  lemma ParseOne()
    ensures ParseInt("1") == Some(1)
  {
    ParseIntToStr(1);
    assert IntToStr(1) == "1";
  }

  lemma ParseZeroOne()
    ensures ParseInt("01") == Some(1)
  {
    StripPlain("01");
    assert IsDecimal("01");
    assert "01"[..1] == "0";
    assert "0"[..0] == "";
  }

  /**
    The connection callback: the record is marked connected (`KeyError`
    if it was removed meanwhile) and `flightmode.posSet` is set to `1`;
    no position is pushed.
   */
  function LegacyOnConnectionAt(f: Fleet, droneId: string): (r: Ran)
    ensures LegacyKey(droneId) !in f.drones ==> r == Ran(f, Some(KeyError))
    ensures LegacyKey(droneId) in f.drones ==>
      var k := LegacyKey(droneId);
      r.raised.None? && r.f.drones == f.drones[k := f.drones[k].(connected := true)]
      && r.f.events == f.events + [SetParamValue(f.drones[k].cf, PosSetName(), "1")]
      && r.f.ids == f.ids && r.f.errors == f.errors
  {
    var k := LegacyKey(droneId);
    if k !in f.drones then Ran(f, Some(KeyError)) else Ran(Connected(f, k), None)
  }

  /**
    After the connection callback the drone's record is among those
    `get_connected_drones` returns, and a disconnection takes it out again
    while keeping the record.
   */
  lemma LegacyConnectThenDisconnect(f: Fleet, droneId: string)
    requires LegacyKey(droneId) in f.ids && LegacyKey(droneId) in f.drones
    ensures var k := LegacyKey(droneId);
      var g := LegacyOnConnectionAt(f, droneId).f;
      var h := OnDisconnectionAt(g, k).f;
      g.drones[k] in ConnectedRecords(g.ids, g.drones)
      && h.drones == f.drones[k := f.drones[k].(connected := false)] && h.ids == f.ids
      && h.drones[k] !in ConnectedRecords(h.ids, h.drones)
  {
  }

  /**
    `osc_goal`: for an id in the registry, connected or not, one setpoint
    with the arguments in the order `(y, x, yaw, z)`; an unknown id is
    ignored without a report.
   */
  function LegacyGoalAt(f: Fleet, droneId: string, x: PyVal, y: PyVal, z: PyVal, yaw: PyVal): (g: Fleet)
    ensures LegacyKey(droneId) !in f.drones ==> g == f
    ensures LegacyKey(droneId) in f.drones ==>
      g == f.(events := f.events + [SendSetpoint(f.drones[LegacyKey(droneId)].cf, y, x, yaw, z)])
  {
    var k := LegacyKey(droneId);
    if k in f.drones then f.(events := f.events + [SendSetpoint(f.drones[k].cf, y, x, yaw, z)]) else f
  }

  /**
    `osc_remove_drone` (routed under `remode`): the link is closed if the
    record is connected, then the record is deleted; an unknown id gets a
    "cannot delete drone" report and nothing else.
   */
  function LegacyRemoveDroneAt(f: Fleet, droneId: string): (g: Fleet)
    ensures LegacyKey(droneId) !in g.drones
    ensures LegacyKey(droneId) !in f.drones ==>
      OneReport(f, g) && g.errors[|f.errors|] == CannotDelete(LegacyKey(droneId))
    ensures LegacyKey(droneId) in f.drones ==>
      var k := LegacyKey(droneId);
      g.events == f.events + CloseCalls(f.drones[k]) && g.errors == f.errors
      && forall j :: j in f.drones && j != k ==> j in g.drones && g.drones[j] == f.drones[j]
  {
    var k := LegacyKey(droneId);
    if k in f.drones then f.(ids := Without(f.ids, k), drones := f.drones - {k}, events := f.events + CloseCalls(f.drones[k]))
    else f.(errors := f.errors + [CannotDelete(k)])
  }

  /** Removing keeps the registry's order a list of its keys, each once. */
  lemma LegacyRemoveDroneIndexed(f: Fleet, droneId: string)
    requires Indexed(f.ids, f.drones)
    ensures var g := LegacyRemoveDroneAt(f, droneId);
      Indexed(g.ids, g.drones)
  {
    if LegacyKey(droneId) in f.drones {
      WithoutIndexed(f.ids, f.drones, LegacyKey(droneId));
    }
  }

  /**
    Adding a drone under a new id and removing it again gives back the
    registry, keys, records and order; what remains is the handle's
    callbacks and the opened link.
   */
  lemma LegacyAddThenRemove(f: Fleet, droneId: string, url: PyVal)
    requires Indexed(f.ids, f.drones) && LegacyKey(droneId) !in f.drones
    ensures var cf := Handle(f.created);
      var g := LegacyRemoveDroneAt(LegacyAddDroneAt(f, droneId, url), droneId);
      g.drones == f.drones && g.ids == f.ids && g.errors == f.errors
      && g.events == f.events + [ConnectCallbacks(cf), OpenLink(cf, url)]
  {
    var k := LegacyKey(droneId);
    LegacyAddNewDrone(f, droneId, url);
    WithoutAppended(f.ids, k);
    assert LegacyAddDroneAt(f, droneId, url).drones - {k} == f.drones;
  }

  // ---------------------------------------------------------------------
  // The same handlers as methods on the server

  method LegacyAddDroneOn(srv: Server, droneId: string, url: PyVal)
    modifies srv
    ensures srv.Snap() == LegacyAddDroneAt(old(srv.Snap()), droneId, url)
    ensures srv.Routing() == old(srv.Routing())
  {
    var k := LegacyKey(droneId);
    if k !in srv.drones {
      var cf := Handle(srv.created);
      srv.ids, srv.drones, srv.events, srv.created :=
        Put(srv.ids, k, srv.drones), srv.drones[k := NewRecord(url, cf)], srv.events + [ConnectCallbacks(cf)], srv.created + 1;
    }
    var rec := srv.drones[k];
    if !rec.connected {
      srv.events := srv.events + [OpenLink(rec.cf, url)];
    } else {
      srv.errors := srv.errors + [AlreadyConnected(k)];
    }
  }

  method LegacyOnConnectionOn(srv: Server, droneId: string) returns (raised: Option<Exc>)
    modifies srv
    ensures Ran(srv.Snap(), raised) == LegacyOnConnectionAt(old(srv.Snap()), droneId)
    ensures srv.Routing() == old(srv.Routing())
  {
    var k := LegacyKey(droneId);
    if k !in srv.drones {
      return Some(KeyError);
    }
    MarkConnectedOn(srv, k);
    raised := None;
  }

  method LegacyGoalOn(srv: Server, droneId: string, x: PyVal, y: PyVal, z: PyVal, yaw: PyVal)
    modifies srv
    ensures srv.Snap() == LegacyGoalAt(old(srv.Snap()), droneId, x, y, z, yaw)
    ensures srv.Routing() == old(srv.Routing())
  {
    var k := LegacyKey(droneId);
    if k in srv.drones {
      srv.events := srv.events + [SendSetpoint(srv.drones[k].cf, y, x, yaw, z)];
    }
  }

  method LegacyRemoveDroneOn(srv: Server, droneId: string)
    modifies srv
    ensures srv.Snap() == LegacyRemoveDroneAt(old(srv.Snap()), droneId)
    ensures srv.Routing() == old(srv.Routing())
  {
    var k := LegacyKey(droneId);
    if k in srv.drones {
      srv.ids, srv.drones, srv.events := Without(srv.ids, k), srv.drones - {k}, srv.events + CloseCalls(srv.drones[k]);
    } else {
      srv.errors := srv.errors + [CannotDelete(k)];
    }
  }
}
