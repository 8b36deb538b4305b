/**
  `osc_update_lps_pos` over lists of drones and nodes. Each turn of the
  outer `multi_drones` loop hands the whole drone selector on to
  `osc_set_param`, which fans out over it again: with `k` drones in the
  selector, every drone receives every anchor coordinate `k` times.
 */
module LpsFanOut {
  import opened Wrappers
  import opened Text
  import opened Registry
  import opened OscValidators
  import opened ServerValidators
  import opened Fleet
  import opened ParamHandlers
  import opened FanOut

  /** The selector a client writes for a list of ids: their decimal forms joined by `;`. */
  function ListSelector(ns: seq<int>): PyVal {
    Str(Join(IntStrs(ns), ";"))
  }

  /** The calls that push the position `p` of node `n` through `osc_set_param` to the drones `hs`: every `x`, then every `y`, then every `z`. */
  function PositionCalls(hs: seq<Handle>, n: int, p: Position): seq<Event> {
    SetCalls(hs, AnchorName(n, "x"), PyStr(p.x))
    + SetCalls(hs, AnchorName(n, "y"), PyStr(p.y))
    + SetCalls(hs, AnchorName(n, "z"), PyStr(p.z))
  }

  /** The calls of one turn of the loop over nodes: each node with a stored position pushed to `hs`, in the order of `ns`. */
  function NodesCalls(hs: seq<Handle>, ns: seq<int>, lps: seq<Option<Position>>): seq<Event>
    decreases |ns|
  {
    if ns == [] then []
    else
      var n := ns[|ns| - 1];
      NodesCalls(hs, ns[..|ns| - 1], lps)
      + (if 0 <= n < |lps| && lps[n].Some? then PositionCalls(hs, n, lps[n].value) else [])
  }

  /** `k` copies of `es`, one after the other. */
  function Repeat(es: seq<Event>, k: nat): (r: seq<Event>)
    ensures |r| == k * |es|
  {
    if k == 0 then [] else Repeat(es, k - 1) + es
  }

  /** Every drone of `ds` is registered. */
  predicate Registered(f: Fleet, ds: seq<int>) {
    forall i :: 0 <= i < |ds| ==> Int(ds[i]) in f.drones
  }

  /** Every drone of `ds` is registered and connected. */
  predicate Connected(f: Fleet, ds: seq<int>)
    ensures Connected(f, ds) ==> Registered(f, ds)
  {
    forall i :: 0 <= i < |ds| ==> ConnectedId(f, ds[i])
  }

  lemma ConnectedInit(f: Fleet, ds: seq<int>)
    requires ds != [] && Connected(f, ds)
    ensures Connected(f, ds[..|ds| - 1]) && ConnectedId(f, ds[|ds| - 1])
  {
  }

  /** Node `n` is below the node count, has a stored position, and every drone of `ds` has its anchor parameters. */
  predicate NodeReady(f: Fleet, ds: seq<int>, n: int) {
    0 <= n < f.lpsNodeNumber && n < |f.lpsPositions| && f.lpsPositions[n].Some?
    && forall i :: 0 <= i < |ds| ==> AnchorsSettable(f, ds[i], n)
  }

  /** The modules, the registry and the positions of two fleets agree. */
  predicate SameSetup(f: Fleet, g: Fleet) {
    g.modules == f.modules && g.drones == f.drones
    && g.lpsNodeNumber == f.lpsNodeNumber && g.lpsPositions == f.lpsPositions
  }

  /** Only calls were added: what the handlers check is the same on both fleets. */
  lemma SameSetupChecks(f: Fleet, g: Fleet, ds: seq<int>, ns: seq<int>)
    requires SameSetup(f, g) && Registered(f, ds)
    requires forall n :: n in ns ==> NodeReady(f, ds, n)
    ensures Registered(g, ds) && Handles(g, ds) == Handles(f, ds)
    ensures forall n :: n in ns ==> NodeReady(g, ds, n)
    ensures forall d :: ConnectedId(f, d) ==> ConnectedId(g, d)
  {
    forall n | n in ns
      ensures NodeReady(g, ds, n)
    {
      assert NodeReady(f, ds, n);
      forall i | 0 <= i < |ds|
        ensures AnchorsSettable(g, ds[i], n)
      {
        assert AnchorsSettable(f, ds[i], n);
      }
    }
  }

  /** A list selector of at least one id names exactly those ids, in order, for drones and for nodes. */
  lemma ListTargets(ns: seq<int>)
    requires |ns| >= 1
    ensures PyStr(ListSelector(ns)) != "*"
    ensures TokenTargets(PyStr(ListSelector(ns))) == AsTargets(ns)
  {
    var v := View({"CRAZYFLIE"}, [], map[], 0, []);
    var sel := ListSelector(ns);
    SelectorListInOrder(v, ns);
    var p := OscDronePlanFixed(v, sel);
    assert p.ts == AsTargets(ns);
    assert ConnectedIds(v.ids, v.drones) == [];
  }

  /** One node pushed to a list of drones that all have its anchor parameters: the `x` calls, the `y` calls, the `z` calls. */
  lemma PushPositionList(f: Fleet, ds: seq<int>, n: int, p: Position)
    requires "CRAZYFLIE" in f.modules && |ds| >= 1
    requires forall i :: 0 <= i < |ds| ==> AnchorsSettable(f, ds[i], n)
    ensures Registered(f, ds)
    ensures PushPosition(f, n, p, ListSelector(ds))
      == Ran(f.(events := f.events + PositionCalls(Handles(f, ds), n, p)), None)
  {
    AnchorsAll(f, f, ds, n);
    var hs := Handles(f, ds);
    var anchor := Str("anchorpos");
    var gx, gy, gz := Str(AnchorParam(n, "x")), Str(AnchorParam(n, "y")), Str(AnchorParam(n, "z"));
    var cx := SetCalls(hs, AnchorName(n, "x"), PyStr(p.x));
    var cy := SetCalls(hs, AnchorName(n, "y"), PyStr(p.y));
    var cz := SetCalls(hs, AnchorName(n, "z"), PyStr(p.z));
    var fx := f.(events := f.events + cx);
    var fy := fx.(events := fx.events + cy);
    AxisList(f, ds, anchor, gx, p.x);
    AnchorsAll(f, fx, ds, n);
    AxisList(fx, ds, anchor, gy, p.y);
    AnchorsAll(f, fy, ds, n);
    AxisList(fy, ds, anchor, gz, p.z);
    var fz := fy.(events := fy.events + cz);
    PushPositionThree(f, n, p, ListSelector(ds), fx, fy, fz);
    Regroup(f.events, cx, cy, cz);
  }

  lemma Regroup(s: seq<Event>, a: seq<Event>, b: seq<Event>, c: seq<Event>)
    ensures s + a + b + c == s + (a + b + c)
  {
  }

  /** The push of a node is its three `osc_set_param` calls, one after the other. */
  lemma PushPositionThree(f: Fleet, n: int, p: Position, drones: PyVal, fx: Fleet, fy: Fleet, fz: Fleet)
    requires MultiDrones(f, drones, SetParam(Str("anchorpos"), Str(AnchorParam(n, "x")), p.x)) == Ran(fx, None)
    requires MultiDrones(fx, drones, SetParam(Str("anchorpos"), Str(AnchorParam(n, "y")), p.y)) == Ran(fy, None)
    requires MultiDrones(fy, drones, SetParam(Str("anchorpos"), Str(AnchorParam(n, "z")), p.z)) == Ran(fz, None)
    ensures PushPosition(f, n, p, drones) == Ran(fz, None)
  {
  }

  /** What the push of node `n` checks holds on every fleet with the same setup, and the drones' handles are the same. */
  lemma AnchorsAll(f: Fleet, g: Fleet, ds: seq<int>, n: int)
    requires SameSetup(f, g)
    requires forall i :: 0 <= i < |ds| ==> AnchorsSettable(f, ds[i], n)
    ensures Registered(g, ds) && Registered(f, ds) && Handles(g, ds) == Handles(f, ds)
    ensures AllSettable(g, ds, Str("anchorpos"), Str(AnchorParam(n, "x")))
    ensures AllSettable(g, ds, Str("anchorpos"), Str(AnchorParam(n, "y")))
    ensures AllSettable(g, ds, Str("anchorpos"), Str(AnchorParam(n, "z")))
  {
    forall i | 0 <= i < |ds|
      ensures Int(ds[i]) in g.drones && AnchorsSettable(g, ds[i], n)
    {
      assert AnchorsSettable(f, ds[i], n);
    }
  }

  /** One axis of that push: every drone of the list gets the call, in order. */
  lemma AxisList(f: Fleet, ds: seq<int>, group: PyVal, name: PyVal, value: PyVal)
    requires "CRAZYFLIE" in f.modules && |ds| >= 1 && AllSettable(f, ds, group, name)
    ensures MultiDrones(f, ListSelector(ds), SetParam(group, name, value))
      == Ran(f.(events := f.events + SetCalls(Handles(f, ds), ParamName(group, name), PyStr(value))), None)
  {
    SetParamSelectorList(f, ds, group, name, value);
    SetParamCallsAll(f, ds, group, name, value);
  }

  lemma Regroup2(s: seq<Event>, a: seq<Event>, b: seq<Event>)
    ensures s + a + b == s + (a + b)
  {
  }

  /** One drone and one ready node: both checks pass, and the node's stored position is pushed to every drone of the list. */
  lemma NodeBodyList(f: Fleet, d: int, ds: seq<int>, n: int)
    requires "LPS" in f.modules && "CRAZYFLIE" in f.modules && |ds| >= 1 && Registered(f, ds)
    requires ConnectedId(f, d) && NodeReady(f, ds, n)
    ensures NodeBody(f, d, n, ListSelector(ds))
      == Ran(f.(events := f.events + PositionCalls(Handles(f, ds), n, f.lpsPositions[n].value)), None)
  {
    NodeChecksPass(f, d, n);
    var p := f.lpsPositions[n].value;
    assert f.lpsPositions[PyIndex(|f.lpsPositions|, n).value].value == p;
    PushPositionList(f, ds, n, p);
  }

  /** The loop over a list of ready nodes for one connected drone: each node's push, in order, and nothing raised. */
  lemma {:induction false} NodeFanList(f: Fleet, d: int, ds: seq<int>, ns: seq<int>)
    requires "LPS" in f.modules && "CRAZYFLIE" in f.modules && |ds| >= 1 && Registered(f, ds)
    requires ConnectedId(f, d) && forall n :: n in ns ==> NodeReady(f, ds, n)
    ensures NodeFan(f, d, AsTargets(ns), ListSelector(ds))
      == Ran(f.(events := f.events + NodesCalls(Handles(f, ds), ns, f.lpsPositions)), None)
    decreases |ns|
  {
    var sel := ListSelector(ds);
    var hs := Handles(f, ds);
    if ns == [] {
      assert AsTargets(ns) == [];
      assert f.events + [] == f.events;
    } else {
      var init := ns[..|ns| - 1];
      assert forall x :: x in init ==> x in ns;
      NodeFanList(f, d, ds, init);
      NodeFanListStep(f, d, ds, ns);
    }
  }

  /** The last node of the list, once the loop over the ones before it has pushed theirs. */
  lemma NodeFanListStep(f: Fleet, d: int, ds: seq<int>, ns: seq<int>)
    requires "LPS" in f.modules && "CRAZYFLIE" in f.modules && |ds| >= 1 && Registered(f, ds)
    requires ConnectedId(f, d) && ns != [] && forall n :: n in ns ==> NodeReady(f, ds, n)
    requires NodeFan(f, d, AsTargets(ns[..|ns| - 1]), ListSelector(ds))
      == Ran(f.(events := f.events + NodesCalls(Handles(f, ds), ns[..|ns| - 1], f.lpsPositions)), None)
    ensures NodeFan(f, d, AsTargets(ns), ListSelector(ds))
      == Ran(f.(events := f.events + NodesCalls(Handles(f, ds), ns, f.lpsPositions)), None)
  {
    var sel := ListSelector(ds);
    var hs := Handles(f, ds);
    var m := |ns| - 1;
    var before := NodesCalls(hs, ns[..m], f.lpsPositions);
    var g := f.(events := f.events + before);
    NodeFanLastNode(f, d, ns, sel);
    NodeReadyKept(f, g, d, ds, ns[m]);
    NodeBodyList(g, d, ds, ns[m]);
    var p := f.lpsPositions[ns[m]].value;
    NodesCallsLast(hs, ns, f.lpsPositions);
    Regroup2(f.events, before, PositionCalls(hs, ns[m], p));
  }

  lemma NodeFanLastNode(f: Fleet, d: int, ns: seq<int>, sel: PyVal)
    requires ns != [] && NodeFan(f, d, AsTargets(ns[..|ns| - 1]), sel).raised.None?
    ensures NodeFan(f, d, AsTargets(ns), sel)
      == Catch(NodeBody(NodeFan(f, d, AsTargets(ns[..|ns| - 1]), sel).f, d, ns[|ns| - 1], sel))
  {
    var ts := AsTargets(ns);
    assert ts[..|ts| - 1] == AsTargets(ns[..|ns| - 1]);
    NodeFanNext(f, d, ts, sel);
  }

  lemma NodeReadyKept(f: Fleet, g: Fleet, d: int, ds: seq<int>, n: int)
    requires SameSetup(f, g) && Registered(f, ds) && NodeReady(f, ds, n)
    ensures Registered(g, ds) && Handles(g, ds) == Handles(f, ds) && NodeReady(g, ds, n)
    ensures ConnectedId(f, d) ==> ConnectedId(g, d)
  {
    forall i | 0 <= i < |ds|
      ensures AnchorsSettable(g, ds[i], n)
    {
      assert AnchorsSettable(f, ds[i], n);
    }
  }

  lemma NodesCallsLast(hs: seq<Handle>, ns: seq<int>, lps: seq<Option<Position>>)
    requires ns != [] && 0 <= ns[|ns| - 1] < |lps| && lps[ns[|ns| - 1]].Some?
    ensures NodesCalls(hs, ns, lps)
      == NodesCalls(hs, ns[..|ns| - 1], lps) + PositionCalls(hs, ns[|ns| - 1], lps[ns[|ns| - 1]].value)
  {
  }

  /** `multi_nodes` over a list selector runs the loop over exactly those nodes. */
  lemma PushAnchorsList(f: Fleet, d: int, drones: PyVal, ns: seq<int>)
    requires "LPS" in f.modules && |ns| >= 1
    ensures PushAnchorsAt(f, d, drones, ListSelector(ns)) == NodeFan(f, d, AsTargets(ns), drones)
  {
    ListTargets(ns);
  }

  /**
    The loop of the outer `multi_drones` over the connected drones `os`,
    each turn running the loop over the nodes with the whole drone list:
    one copy of the nodes' calls per turn.
   */
  lemma {:induction false} OuterFan(f: Fleet, os: seq<int>, ds: seq<int>, ns: seq<int>)
    requires "LPS" in f.modules && "CRAZYFLIE" in f.modules && |ds| >= 1 && |ns| >= 1 && Registered(f, ds)
    requires Connected(f, os)
    requires forall n :: n in ns ==> NodeReady(f, ds, n)
    ensures Fan(f, AsTargets(os), PushAnchors(ListSelector(ds), ListSelector(ns)))
      == Ran(f.(events := f.events + Repeat(NodesCalls(Handles(f, ds), ns, f.lpsPositions), |os|)), None)
    decreases |os|
  {
    if os == [] {
      assert AsTargets(os) == [];
      assert f.events + [] == f.events;
    } else {
      var init := os[..|os| - 1];
      ConnectedInit(f, os);
      OuterFan(f, init, ds, ns);
      OuterFanStep(f, os, ds, ns);
    }
  }

  /** The last drone of the outer loop, once the turns before it have run. */
  lemma OuterFanStep(f: Fleet, os: seq<int>, ds: seq<int>, ns: seq<int>)
    requires "LPS" in f.modules && "CRAZYFLIE" in f.modules && |ds| >= 1 && |ns| >= 1 && Registered(f, ds)
    requires os != [] && ConnectedId(f, os[|os| - 1])
    requires forall n :: n in ns ==> NodeReady(f, ds, n)
    requires Fan(f, AsTargets(os[..|os| - 1]), PushAnchors(ListSelector(ds), ListSelector(ns)))
      == Ran(f.(events := f.events + Repeat(NodesCalls(Handles(f, ds), ns, f.lpsPositions), |os| - 1)), None)
    ensures Fan(f, AsTargets(os), PushAnchors(ListSelector(ds), ListSelector(ns)))
      == Ran(f.(events := f.events + Repeat(NodesCalls(Handles(f, ds), ns, f.lpsPositions), |os|)), None)
  {
    var sel, nodes := ListSelector(ds), ListSelector(ns);
    var a := PushAnchors(sel, nodes);
    var calls := NodesCalls(Handles(f, ds), ns, f.lpsPositions);
    var m := |os| - 1;
    var before := Repeat(calls, m);
    var g := f.(events := f.events + before);
    FanLastDrone(f, os, a);
    BodyPushAnchors(g, os[m], sel, nodes);
    PushAnchorsList(g, os[m], sel, ns);
    SameSetupChecks(f, g, ds, ns);
    NodeFanList(g, os[m], ds, ns);
    Regroup2(f.events, before, calls);
  }

  lemma FanLastDrone(f: Fleet, os: seq<int>, a: Action)
    requires os != [] && Fan(f, AsTargets(os[..|os| - 1]), a).raised.None?
    ensures Fan(f, AsTargets(os), a) == Catch(Body(Fan(f, AsTargets(os[..|os| - 1]), a).f, a, os[|os| - 1]))
  {
    var ts := AsTargets(os);
    assert ts[..|ts| - 1] == AsTargets(os[..|os| - 1]);
    FanNext(f, ts, a);
  }

  /**
    `osc_update_lps_pos` with a `;`-list of `k` connected drones and a
    `;`-list of nodes that have stored positions and whose anchor
    parameters every drone has: the whole push to every drone of the
    list, once per drone of the list, so `k` times in all, and nothing
    reported or raised.
   */
  lemma UpdateLpsPosLists(f: Fleet, ds: seq<int>, ns: seq<int>)
    requires "CRAZYFLIE" in f.modules && "LPS" in f.modules && "PARAM" in f.modules
    requires |ds| >= 1 && |ns| >= 1
    requires Connected(f, ds)
    requires forall n :: n in ns ==> NodeReady(f, ds, n)
    ensures UpdateLpsPos(f, ListSelector(ds), ListSelector(ns))
      == Ran(f.(events := f.events + Repeat(NodesCalls(Handles(f, ds), ns, f.lpsPositions), |ds|)), None)
  {
    var a := PushAnchors(ListSelector(ds), ListSelector(ns));
    assert Then(OscRequires(ViewOf(f), "LPS"), OscRequires(ViewOf(f), "PARAM")) == Pass;
    MultiDronesList(f, ds, a);
    OuterFan(f, ds, ds, ns);
  }
}
