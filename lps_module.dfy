/**
  `LpsModule` of the `osc_modules` tree: the number of Loco Positioning
  anchors the server believes in, and the two commands sent to one anchor
  through the radio of the first connected drone.
 */
module LpsHandlers {
  import opened Wrappers
  import opened Registry
  import opened OscValidators
  import opened ServerValidators
  import opened Fleet
  import opened FleetServer

  /** What an anchor is told: its position, or to reboot into the bootloader or the firmware. */
  datatype AnchorAct = SetPosition(pos: Position) | Reboot(toBootloader: bool)

  /** The call an anchor command makes on the anchor driver of handle `cf`. */
  function AnchorEvent(cf: Handle, node: int, act: AnchorAct): (e: Event)
    ensures act.SetPosition? ==> e == AnchorSetPosition(cf, node, act.pos)
    ensures act.Reboot? ==> e == AnchorReboot(cf, node, act.toBootloader)
  {
    match act
    case SetPosition(p) => AnchorSetPosition(cf, node, p)
    case Reboot(b) => AnchorReboot(cf, node, b)
  }

  /**
    `osc_set_node_number`: `int(number)` becomes the node count (a malformed
    number raises `ValueError`); the stored positions are not resized.
   */
  function SetNodeNumberAt(f: Fleet, number: PyVal): (r: Ran)
    ensures ToInt(number).None? ==> r == Ran(f, Some(ValueError))
    ensures ToInt(number).Some? ==> r == Ran(f.(lpsNodeNumber := ToInt(number).value), None)
  {
    match ToInt(number)
    case None => Ran(f, Some(ValueError))
    case Some(n) => Ran(f.(lpsNodeNumber := n), None)
  }

  /**
    After `set_node_number` with `n`, exactly the node ids below `n` pass the
    node check, whatever the count was before; the count is all it reads.
   */
  lemma NodeNumberGovernsNodes(f: Fleet, n: int, node: int)
    requires "LPS" in f.modules
    ensures var g := SetNodeNumberAt(f, Int(n)).f;
      (LpsNodeExists(ViewOf(g), Int(node)) == Pass <==> node < n)
      && (node >= n ==> LpsNodeExists(ViewOf(g), Int(node)) == Reject(BadNode(node, n)))
  {
  }

  /**
    The records `get_connected_drones` lists are non-empty exactly when
    `one_drone_is_connected` passes, and the first of them is the record of
    the first connected id.
   */
  lemma FirstConnected(f: Fleet)
    requires "CRAZYFLIE" in f.modules
    ensures OneDroneConnected(ViewOf(f)) == Pass <==> ConnectedRecords(f.ids, f.drones) != []
    ensures ConnectedRecords(f.ids, f.drones) != [] ==>
      var k := ConnectedIds(f.ids, ViewOf(f).drones)[0];
      k in f.drones && f.drones[k].connected && ConnectedRecords(f.ids, f.drones)[0] == f.drones[k]
  {
    ConnectedRecordsMatchIds(f);
    var recs := ConnectedRecords(f.ids, f.drones);
    if recs != [] {
      assert recs[0] in recs;
    }
  }

  /**
    The shared body of the two anchor commands behind
    `one_drone_is_connected` and then a node check: the command goes to the
    anchor through the first connected drone and nothing is stored.
   */
  function AnchorCommand(f: Fleet, nodeCheck: Verdict, nodeArg: PyVal, act: AnchorAct): (r: Ran)
    requires nodeCheck == Pass ==> ToInt(nodeArg).Some?
    ensures Then(OneDroneConnected(ViewOf(f)), nodeCheck) != Pass ==>
      r == Refuse(f, Then(OneDroneConnected(ViewOf(f)), nodeCheck))
    ensures Then(OneDroneConnected(ViewOf(f)), nodeCheck) == Pass ==>
      ConnectedRecords(f.ids, f.drones) != []
      && r == Ran(f.(events := f.events + [AnchorEvent(ConnectedRecords(f.ids, f.drones)[0].cf, ToInt(nodeArg).value, act)]), None)
  {
    var verdict := Then(OneDroneConnected(ViewOf(f)), nodeCheck);
    if verdict != Pass then Refuse(f, verdict)
    else
      FirstConnected(f);
      var rec := ConnectedRecords(f.ids, f.drones)[0];
      Ran(f.(events := f.events + [AnchorEvent(rec.cf, ToInt(nodeArg).value, act)]), None)
  }

  /**
    `osc_set_node_position`, the node check reporting a bad index. With
    LPS present and some drone connected: a node below the count gets one
    `set_position(node, (x, y, z))` through the first connected drone, a
    node at or past it one "Bad node_id" report, a node that is not an
    integer `ValueError`; nothing is stored in any case.
   */
  function SetNodePositionAt(f: Fleet, nodeArg: PyVal, x: PyVal, y: PyVal, z: PyVal): (r: Ran)
    ensures "LPS" in f.modules && OneDroneConnected(ViewOf(f)) == Pass ==>
      && (ToInt(nodeArg).None? ==> r == Ran(f, Some(ValueError)))
      && (ToInt(nodeArg).Some? && ToInt(nodeArg).value >= f.lpsNodeNumber ==>
            r == Ran(f.(errors := f.errors + [BadNode(ToInt(nodeArg).value, f.lpsNodeNumber)]), None))
      && (ToInt(nodeArg).Some? && ToInt(nodeArg).value < f.lpsNodeNumber ==>
            ConnectedRecords(f.ids, f.drones) != []
            && r == Ran(f.(events := f.events + [AnchorSetPosition(ConnectedRecords(f.ids, f.drones)[0].cf,
                                                                   ToInt(nodeArg).value, Position(x, y, z))]), None))
  {
    AnchorCommand(f, LpsNodeExists(ViewOf(f), nodeArg), nodeArg, SetPosition(Position(x, y, z)))
  }

  /**
    `osc_reboot`: the bootloader iff `reboot_bootloader` is truthy, the
    firmware when it is omitted; the node check and its outcomes are those
    of `osc_set_node_position`.
   */
  function RebootAt(f: Fleet, nodeArg: PyVal, rebootBootloader: Option<PyVal>): (r: Ran)
    ensures "LPS" in f.modules && OneDroneConnected(ViewOf(f)) == Pass ==>
      && (ToInt(nodeArg).None? ==> r == Ran(f, Some(ValueError)))
      && (ToInt(nodeArg).Some? && ToInt(nodeArg).value >= f.lpsNodeNumber ==>
            r == Ran(f.(errors := f.errors + [BadNode(ToInt(nodeArg).value, f.lpsNodeNumber)]), None))
      && (ToInt(nodeArg).Some? && ToInt(nodeArg).value < f.lpsNodeNumber ==>
            ConnectedRecords(f.ids, f.drones) != []
            && r == Ran(f.(events := f.events + [AnchorReboot(ConnectedRecords(f.ids, f.drones)[0].cf, ToInt(nodeArg).value,
                                                              rebootBootloader.Some? && Truthy(rebootBootloader.value))]), None))
  {
    var toBootloader := rebootBootloader.Some? && Truthy(rebootBootloader.value);
    AnchorCommand(f, LpsNodeExists(ViewOf(f), nodeArg), nodeArg, Reboot(toBootloader))
  }

  /**
    `osc_set_node_position` for a valid node with a connected drone: one
    `set_position` call on the anchor through the first connected drone,
    and the registry, the stored positions and the node count unchanged.
   */
  lemma SetNodePositionSends(f: Fleet, node: int, x: PyVal, y: PyVal, z: PyVal)
    requires "CRAZYFLIE" in f.modules && "LPS" in f.modules && node < f.lpsNodeNumber
    requires exists k :: k in f.ids && k in f.drones && f.drones[k].connected
    ensures var r := SetNodePositionAt(f, Int(node), x, y, z);
      var k := ConnectedIds(f.ids, ViewOf(f).drones)[0];
      |ConnectedIds(f.ids, ViewOf(f).drones)| > 0 && k in f.drones
      && r == Ran(f.(events := f.events + [AnchorSetPosition(f.drones[k].cf, node, Position(x, y, z))]), None)
  {
    var k :| k in f.ids && k in f.drones && f.drones[k].connected;
    var v := ViewOf(f);
    assert v.drones[k].connected;
    assert OneDroneConnected(v) == Pass;
    assert Then(OneDroneConnected(v), LpsNodeExists(v, Int(node))) == Pass;
    FirstConnected(f);
  }

  /**
    The connected-drone check comes first: with no drone connected, any
    node, even one out of range or malformed, gets the "no drone connected"
    report and nothing else happens.
   */
  lemma NoDroneReportedFirst(f: Fleet, nodeArg: PyVal, act: AnchorAct)
    requires "CRAZYFLIE" in f.modules
    requires forall k :: k in f.drones ==> !f.drones[k].connected
    ensures var nodeCheck := LpsNodeExists(ViewOf(f), nodeArg);
      AnchorCommand(f, nodeCheck, nodeArg, act) == Ran(f.(errors := f.errors + [NoDroneConnected]), None)
  {
    FirstConnected(f);
  }

  /**
    `osc_reboot` reboots into the bootloader exactly when the flag is given
    and truthy; without the flag the anchor goes back to its firmware.
   */
  lemma RebootMode(f: Fleet, node: int, flag: Option<PyVal>)
    requires "CRAZYFLIE" in f.modules && "LPS" in f.modules && node < f.lpsNodeNumber
    requires ConnectedRecords(f.ids, f.drones) != []
    ensures var r := RebootAt(f, Int(node), flag);
      var cf := ConnectedRecords(f.ids, f.drones)[0].cf;
      r.raised.None? && r.f == f.(events := f.events + [AnchorReboot(cf, node, flag.Some? && Truthy(flag.value))])
    ensures RebootAt(f, Int(node), None).f.events[|f.events|].toBootloader == false
  {
    FirstConnected(f);
  }

  /**
    With the node check of the `osc_modules` tree as written, an anchor
    command on an out-of-range node with a drone connected raises
    `TypeError` while building its report; with the corrected check it
    reports the bad index and changes nothing else.
   */
  lemma OutOfRangeNodeAsWritten(f: Fleet, node: int, act: AnchorAct)
    requires "CRAZYFLIE" in f.modules && "LPS" in f.modules && node >= f.lpsNodeNumber
    requires ConnectedRecords(f.ids, f.drones) != []
    ensures AnchorCommand(f, LpsNodeExistsAsWritten(ViewOf(f), Int(node)), Int(node), act) == Ran(f, Some(TypeError))
    ensures AnchorCommand(f, LpsNodeExists(ViewOf(f), Int(node)), Int(node), act)
      == Ran(f.(errors := f.errors + [BadNode(node, f.lpsNodeNumber)]), None)
  {
    FirstConnected(f);
  }

  // ---------------------------------------------------------------------
  // The same handlers as methods on the server

  method SetNodeNumberOn(srv: Server, number: PyVal) returns (raised: Option<Exc>)
    modifies srv
    ensures Ran(srv.Snap(), raised) == SetNodeNumberAt(old(srv.Snap()), number)
    ensures srv.Routing() == old(srv.Routing())
  {
    var n := ToInt(number);
    if n.None? {
      return Some(ValueError);
    }
    srv.lpsNodeNumber := n.value;
    raised := None;
  }

  method AnchorCommandOn(srv: Server, nodeCheck: Verdict, nodeArg: PyVal, act: AnchorAct) returns (raised: Option<Exc>)
    requires nodeCheck == Pass ==> ToInt(nodeArg).Some?
    modifies srv
    ensures Ran(srv.Snap(), raised) == AnchorCommand(old(srv.Snap()), nodeCheck, nodeArg, act)
    ensures srv.Routing() == old(srv.Routing())
  {
    ghost var f0 := srv.Snap();
    var verdict := Then(OneDroneConnected(srv.View()), nodeCheck);
    if verdict != Pass {
      raised := srv.Decline(verdict);
      return;
    }
    FirstConnected(f0);
    var drones := ConnectedRecords(srv.ids, srv.drones);
    srv.events := srv.events + [AnchorEvent(drones[0].cf, ToInt(nodeArg).value, act)];
    raised := None;
  }

  method SetNodePositionOn(srv: Server, nodeArg: PyVal, x: PyVal, y: PyVal, z: PyVal) returns (raised: Option<Exc>)
    modifies srv
    ensures Ran(srv.Snap(), raised) == SetNodePositionAt(old(srv.Snap()), nodeArg, x, y, z)
    ensures srv.Routing() == old(srv.Routing())
  {
    raised := AnchorCommandOn(srv, LpsNodeExists(srv.View(), nodeArg), nodeArg, SetPosition(Position(x, y, z)));
  }

  method RebootOn(srv: Server, nodeArg: PyVal, rebootBootloader: Option<PyVal>) returns (raised: Option<Exc>)
    modifies srv
    ensures Ran(srv.Snap(), raised) == RebootAt(old(srv.Snap()), nodeArg, rebootBootloader)
    ensures srv.Routing() == old(srv.Routing())
  {
    var toBootloader := rebootBootloader.Some? && Truthy(rebootBootloader.value);
    raised := AnchorCommandOn(srv, LpsNodeExists(srv.View(), nodeArg), nodeArg, Reboot(toBootloader));
  }
}
