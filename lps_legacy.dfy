/**
  The older `LpsModule` (`Lps.py`): the node count, set as in `LpsHandlers`,
  and `osc_set_node_position` with its checks written inline, the node
  index first and the connected drone second. It has no `reboot` route.
 */
module LegacyLps {
  import opened Wrappers
  import opened Registry
  import opened Fleet
  import opened FleetServer
  import opened LpsHandlers

  /**
    `osc_set_node_position` as written: `int(node_id)` (a malformed index
    raises `ValueError`); an index at or past the node count reaches the
    "Bad node_id" report, which adds the int count to a string and raises
    `TypeError`; otherwise the CRAZYFLIE module is looked up (absent, the
    `None` it returns has no `get_connected_drones`: `AttributeError`), and
    with no drone connected "No drone connected" is reported.
   */
  function LegacySetNodePositionAsWritten(f: Fleet, nodeArg: PyVal, x: PyVal, y: PyVal, z: PyVal): (r: Ran)
    ensures ToInt(nodeArg).Some? && ToInt(nodeArg).value >= f.lpsNodeNumber ==> r == Ran(f, Some(TypeError))
    ensures ToInt(nodeArg).Some? && ToInt(nodeArg).value < f.lpsNodeNumber ==>
      r == LegacySetNodePositionAt(f, nodeArg, x, y, z)
  {
    match ToInt(nodeArg)
    case None => Ran(f, Some(ValueError))
    case Some(node) =>
      if node < f.lpsNodeNumber then InRangeNode(f, node, Position(x, y, z))
      else Ran(f, Some(TypeError))
  }

  /**
    `osc_set_node_position` with the "Bad node_id" report built as intended:
    an out-of-range index is reported and nothing else happens.
   */
  function LegacySetNodePositionAt(f: Fleet, nodeArg: PyVal, x: PyVal, y: PyVal, z: PyVal): (r: Ran)
    ensures ToInt(nodeArg).None? ==> r == Ran(f, Some(ValueError))
    ensures ToInt(nodeArg).Some? && ToInt(nodeArg).value >= f.lpsNodeNumber ==>
      r == Ran(f.(errors := f.errors + [BadNode(ToInt(nodeArg).value, f.lpsNodeNumber)]), None)
  {
    match ToInt(nodeArg)
    case None => Ran(f, Some(ValueError))
    case Some(node) => CheckedNode(f, node, Position(x, y, z))
  }

  /** An integer index: reported when at or past the node count, otherwise sent to the first connected drone. */
  function CheckedNode(f: Fleet, node: int, pos: Position): (r: Ran)
    ensures node >= f.lpsNodeNumber ==> r == Ran(f.(errors := f.errors + [BadNode(node, f.lpsNodeNumber)]), None)
    ensures node < f.lpsNodeNumber ==> r == InRangeNode(f, node, pos)
  {
    if node < f.lpsNodeNumber then InRangeNode(f, node, pos)
    else Ran(f.(errors := f.errors + [BadNode(node, f.lpsNodeNumber)]), None)
  }

  /** The branch for an index below the node count: the first connected drone's anchor gets the position. */
  function InRangeNode(f: Fleet, node: int, pos: Position): (r: Ran)
    ensures "CRAZYFLIE" !in f.modules ==> r == Ran(f, Some(AttributeError))
    ensures "CRAZYFLIE" in f.modules && ConnectedRecords(f.ids, f.drones) == [] ==>
      r == Ran(f.(errors := f.errors + [NoDroneConnected]), None)
    ensures "CRAZYFLIE" in f.modules && ConnectedRecords(f.ids, f.drones) != [] ==>
      r == Ran(f.(events := f.events + [AnchorSetPosition(ConnectedRecords(f.ids, f.drones)[0].cf, node, pos)]), None)
  {
    if "CRAZYFLIE" !in f.modules then Ran(f, Some(AttributeError))
    else
      var drones := ConnectedRecords(f.ids, f.drones);
      if |drones| == 0 then Ran(f.(errors := f.errors + [NoDroneConnected]), None)
      else Ran(f.(events := f.events + [AnchorSetPosition(drones[0].cf, node, pos)]), None)
  }

  /**
    The two versions differ only on an out-of-range index, the one case
    in which the intended "Bad node_id" report is replaced by a `TypeError`.
   */
  lemma LegacyBadNodeRaises(f: Fleet, nodeArg: PyVal, x: PyVal, y: PyVal, z: PyVal)
    ensures LegacySetNodePositionAsWritten(f, nodeArg, x, y, z) != LegacySetNodePositionAt(f, nodeArg, x, y, z)
      <==> ToInt(nodeArg).Some? && ToInt(nodeArg).value >= f.lpsNodeNumber
  {
  }

  /**
    The index check comes before the connected-drone check, the reverse of
    the decorated module: with no drone connected, an out-of-range index is
    reported as a bad node, not as a missing drone, while a valid index
    gets the same "no drone connected" report in both modules.
   */
  lemma LegacyCheckOrder(f: Fleet, node: int, x: PyVal, y: PyVal, z: PyVal)
    requires "CRAZYFLIE" in f.modules && "LPS" in f.modules
    requires forall k :: k in f.drones ==> !f.drones[k].connected
    ensures node >= f.lpsNodeNumber ==>
      LegacySetNodePositionAt(f, Int(node), x, y, z).f.errors == f.errors + [BadNode(node, f.lpsNodeNumber)]
      && SetNodePositionAt(f, Int(node), x, y, z).f.errors == f.errors + [NoDroneConnected]
    ensures node < f.lpsNodeNumber ==>
      LegacySetNodePositionAt(f, Int(node), x, y, z) == SetNodePositionAt(f, Int(node), x, y, z)
  {
    FirstConnected(f);
    NoDroneReportedFirst(f, Int(node), SetPosition(Position(x, y, z)));
  }

  /**
    With a drone connected, the inline checks and the decorated module's
    checks agree on every integer index: the same call, or the same report.
   */
  lemma LegacyAgreesWhenConnected(f: Fleet, node: int, x: PyVal, y: PyVal, z: PyVal)
    requires "CRAZYFLIE" in f.modules && "LPS" in f.modules
    requires ConnectedRecords(f.ids, f.drones) != []
    ensures LegacySetNodePositionAt(f, Int(node), x, y, z) == SetNodePositionAt(f, Int(node), x, y, z)
  {
    FirstConnected(f);
  }

  // ---------------------------------------------------------------------
  // The handler as a method on the server

  method LegacySetNodePositionOn(srv: Server, nodeArg: PyVal, x: PyVal, y: PyVal, z: PyVal) returns (raised: Option<Exc>)
    modifies srv
    ensures Ran(srv.Snap(), raised) == LegacySetNodePositionAt(old(srv.Snap()), nodeArg, x, y, z)
    ensures srv.Routing() == old(srv.Routing())
  {
    var n := ToInt(nodeArg);
    if n.None? {
      return Some(ValueError);
    }
    raised := CheckedNodeOn(srv, n.value, Position(x, y, z));
  }

  method CheckedNodeOn(srv: Server, node: int, pos: Position) returns (raised: Option<Exc>)
    modifies srv
    ensures Ran(srv.Snap(), raised) == CheckedNode(old(srv.Snap()), node, pos)
    ensures srv.Routing() == old(srv.Routing())
  {
    if node >= srv.lpsNodeNumber {
      raised := srv.Decline(Reject(BadNode(node, srv.lpsNodeNumber)));
    } else {
      raised := InRangeNodeOn(srv, node, pos);
    }
  }

  method InRangeNodeOn(srv: Server, node: int, pos: Position) returns (raised: Option<Exc>)
    modifies srv
    ensures Ran(srv.Snap(), raised) == InRangeNode(old(srv.Snap()), node, pos)
    ensures srv.Routing() == old(srv.Routing())
  {
    if "CRAZYFLIE" !in srv.modules {
      return Some(AttributeError);
    }
    var drones := ConnectedRecords(srv.ids, srv.drones);
    if |drones| == 0 {
      raised := srv.Decline(Reject(NoDroneConnected));
    } else {
      srv.events := srv.events + [AnchorSetPosition(drones[0].cf, node, pos)];
      raised := None;
    }
  }
}
