/**
  The fan-out decorators of the `osc_modules` handlers. `multi_drones` runs
  a handler once per drone of a selector; the handler behind
  `/{drones}/lps/{nodes}/update_pos` runs `multi_nodes` per drone, and each
  node pushes its position to the drones of the same selector through
  `osc_set_param`, so the two loops and the handlers they call are one
  recursive definition.
 */
module FanOut {
  import opened Wrappers
  import opened Text
  import opened Registry
  import opened OscValidators
  import opened ServerValidators
  import opened Fleet
  import opened FleetServer
  import opened ParamHandlers
  import opened LogHandlers

  /** A handler decorated with `multi_drones`, with the message arguments other than the selector. */
  datatype Action =
    | SetParam(group: PyVal, name: PyVal, value: PyVal)
    | SendParamTocVariable(variable: PyVal)
    | SendParamToc
    | GetAllValues
    | AddLog(logName: PyVal, period: PyVal)
    | AddLogVariable(logName: PyVal, variable: PyVal, varType: PyVal)
    | StartLog(logName: PyVal)
    | SendLogToc
    /** `osc_update_lps_pos` below its `multi_drones`: the selectors of its path. */
    | PushAnchors(drones: PyVal, nodes: PyVal)

  /** Only the anchor push calls back into `multi_drones`. */
  function Rank(a: Action): nat {
    if a.PushAnchors? then 1 else 0
  }

  /** The `except` of both loops: an exception of one target is reported and the loop goes on. */
  function Catch(r: Ran): (c: Ran)
    ensures c.raised.None?
    ensures r.raised.None? ==> c == r
    ensures r.raised.Some? ==> c.f == r.f.(errors := r.f.errors + [Caught(r.raised.value)])
  {
    if r.raised.Some? then Ran(r.f.(errors := r.f.errors + [Caught(r.raised.value)]), None) else r
  }

  /** The parameter name `osc_update_lps_pos` writes for one axis of a node. */
  function AnchorParam(node: int, axis: string): string {
    "anchor" + IntToStr(node) + axis
  }

  /**
    A `multi_drones` handler: the selector is expanded (with the correction
    that `*` gives the ids of the connected drones and that the selector
    goes through `str()`), then the handler runs once per target.
   */
  function MultiDrones(f: Fleet, sel: PyVal, a: Action): (r: Ran)
    ensures "CRAZYFLIE" !in f.modules ==> r == Ran(f.(errors := f.errors + [MissingModule("CRAZYFLIE")]), None)
    ensures r.raised.Some? ==> r.raised.value == ValueError
    decreases Rank(a), 5, 0
  {
    var p := OscDronePlanFixed(ViewOf(f), sel);
    if p.Refused? then Ran(f.(errors := f.errors + [p.report]), None)
    else
      DronePlanValueErrors(ViewOf(f), sel);
      AbortedValueError(p.ts);
      Fan(f, p.ts, a)
  }

  /**
    The loop of `multi_drones` over the first `|ts|` targets: `int()` of a
    target is outside the `try`, so an unconvertible one ends the loop
    with its exception; an exception of the handler is caught and reported.
   */
  function Fan(f: Fleet, ts: seq<Target>, a: Action): (r: Ran)
    ensures r.raised == Aborted(ts)
    decreases Rank(a), 4, |ts|
  {
    if ts == [] then Ran(f, None)
    else
      AbortedLast(ts);
      var prev := Fan(f, ts[..|ts| - 1], a);
      if prev.raised.Some? then prev
      else match ts[|ts| - 1]
        case Unconvertible(e) => Ran(prev.f, Some(e))
        case Target(id) => Catch(Body(prev.f, a, id))
  }

  /** The decorated handler for one drone id. */
  function Body(f: Fleet, a: Action, id: int): (r: Ran)
    ensures !a.PushAnchors? ==> r.raised.None?
    ensures !a.PushAnchors? && !a.AddLogVariable? && !a.StartLog? && !ConnectedId(f, id) ==> OneReport(f, r.f)
    ensures a.PushAnchors? && r.raised.Some? ==> r.raised.value == ValueError
    decreases Rank(a), 3, 0
  {
    if a.PushAnchors? then PushAnchorsAt(f, id, a.drones, a.nodes) else Handler(f, a, id)
  }

  /** The decorated handlers that do not fan out again. */
  function Handler(f: Fleet, a: Action, id: int): (r: Ran)
    requires !a.PushAnchors?
    ensures r.raised.None?
    ensures !a.AddLogVariable? && !a.StartLog? && !ConnectedId(f, id) ==> OneReport(f, r.f)
  {
    match a
    case SetParam(group, name, value) => SetParamAt(f, id, group, name, value)
    case SendParamTocVariable(variable) => SendTocVariableAt(f, id, variable)
    case SendParamToc => SendTocAt(f, id)
    case GetAllValues => GetAllValuesAt(f, id)
    case AddLog(logName, period) => AddLogAt(f, id, logName, period)
    case AddLogVariable(logName, variable, varType) => LogAddVariableAt(f, id, logName, variable, varType)
    case StartLog(logName) => LogStartAt(f, id, logName)
    case SendLogToc => LogSendTocAt(f, id)
  }

  /** `multi_nodes` for one drone id: the node selector is expanded, then each node is pushed. */
  function PushAnchorsAt(f: Fleet, id: int, drones: PyVal, nodes: PyVal): (r: Ran)
    ensures "LPS" !in f.modules ==> r == Ran(f.(errors := f.errors + [MissingModule("LPS")]), None)
    ensures r.raised.Some? ==> r.raised.value == ValueError
    decreases 1, 2, 0
  {
    var p := NodePlan(ViewOf(f), nodes);
    if p.Refused? then Ran(f.(errors := f.errors + [p.report]), None)
    else
      NodePlanValueErrors(ViewOf(f), nodes);
      AbortedValueError(p.ts);
      NodeFan(f, id, p.ts, drones)
  }

  /** The loop of `multi_nodes`, with the same `try` placement as that of `multi_drones`. */
  function NodeFan(f: Fleet, id: int, ns: seq<Target>, drones: PyVal): (r: Ran)
    ensures r.raised == Aborted(ns)
    decreases 1, 1, |ns|
  {
    if ns == [] then Ran(f, None)
    else
      AbortedLast(ns);
      var prev := NodeFan(f, id, ns[..|ns| - 1], drones);
      if prev.raised.Some? then prev
      else match ns[|ns| - 1]
        case Unconvertible(e) => Ran(prev.f, Some(e))
        case Target(node) => Catch(NodeBody(prev.f, id, node, drones))
  }

  /**
    The body of `osc_update_lps_pos` for one drone and one node: after
    `drone_connected` and `lps_node_has_position`, the node's stored
    position is pushed.
   */
  function NodeBody(f: Fleet, id: int, node: int, drones: PyVal): (r: Ran)
    ensures !ConnectedId(f, id) ==> r.raised.None? && OneReport(f, r.f)
    decreases 1, 0, 1
  {
    var v := ViewOf(f);
    var verdict := Then(DroneConnected(v, Int(id)), LpsNodeHasPosition(v, Int(node)));
    if verdict != Pass then Refuse(f, verdict)
    else PushPosition(f, node, f.lpsPositions[PyIndex(|f.lpsPositions|, node).value].value, drones)
  }

  /**
    The three coordinates of a node set as parameters `anchorpos.anchor{n}x`,
    `y` and `z`, each through the decorated `osc_set_param` with the
    original drone selector; an exception of one call skips the others.
   */
  function PushPosition(f: Fleet, node: int, pos: Position, drones: PyVal): (r: Ran)
    ensures "CRAZYFLIE" !in f.modules ==> r.raised.None? && r.f.(errors := f.errors) == f && |r.f.errors| == |f.errors| + 3
    ensures r.raised.Some? ==> r.raised.value == ValueError
    decreases 1, 0, 0
  {
    var rx := MultiDrones(f, drones, SetParam(Str("anchorpos"), Str(AnchorParam(node, "x")), pos.x));
    if rx.raised.Some? then rx
    else
      var ry := MultiDrones(rx.f, drones, SetParam(Str("anchorpos"), Str(AnchorParam(node, "y")), pos.y));
      if ry.raised.Some? then ry
      else MultiDrones(ry.f, drones, SetParam(Str("anchorpos"), Str(AnchorParam(node, "z")), pos.z))
  }

  /** `osc_update_lps_pos` as routed: LPS, then PARAM, then the fan-out over drones and nodes. */
  function UpdateLpsPos(f: Fleet, drones: PyVal, nodes: PyVal): (r: Ran)
    ensures !("LPS" in f.modules && "PARAM" in f.modules) ==> r.raised.None? && OneReport(f, r.f)
    ensures r.raised.Some? ==> r.raised.value == ValueError
  {
    var v := ViewOf(f);
    var verdict := Then(OscRequires(v, "LPS"), OscRequires(v, "PARAM"));
    if verdict != Pass then Refuse(f, verdict)
    else MultiDrones(f, drones, PushAnchors(drones, nodes))
  }

  // ---------------------------------------------------------------------
  // What the loops do

  /** Once a prefix of the targets has raised, the rest of the loop never runs. */
  lemma FanAfterRaise(f: Fleet, ts: seq<Target>, i: nat, a: Action)
    requires i < |ts| && Fan(f, ts[..i], a).raised.Some?
    ensures Fan(f, ts[..i + 1], a) == Fan(f, ts[..i], a)
  {
    var p := ts[..i + 1];
    assert p[..|p| - 1] == ts[..i];
    FanKeepsRaise(f, p, a);
  }

  lemma FanKeepsRaise(f: Fleet, ts: seq<Target>, a: Action)
    requires ts != [] && Fan(f, ts[..|ts| - 1], a).raised.Some?
    ensures Fan(f, ts, a) == Fan(f, ts[..|ts| - 1], a)
  {}

  lemma NodeFanAfterRaise(f: Fleet, id: int, ns: seq<Target>, i: nat, drones: PyVal)
    requires i < |ns| && NodeFan(f, id, ns[..i], drones).raised.Some?
    ensures NodeFan(f, id, ns[..i + 1], drones) == NodeFan(f, id, ns[..i], drones)
  {
    var p := ns[..i + 1];
    assert p[..|p| - 1] == ns[..i];
    NodeFanKeepsRaise(f, id, p, drones);
  }

  lemma NodeFanKeepsRaise(f: Fleet, id: int, ns: seq<Target>, drones: PyVal)
    requires ns != [] && NodeFan(f, id, ns[..|ns| - 1], drones).raised.Some?
    ensures NodeFan(f, id, ns, drones) == NodeFan(f, id, ns[..|ns| - 1], drones)
  {}

  lemma {:induction false} FanStopsAtRaise(f: Fleet, ts: seq<Target>, i: nat, a: Action)
    requires i <= |ts| && Fan(f, ts[..i], a).raised.Some?
    ensures Fan(f, ts, a) == Fan(f, ts[..i], a)
    decreases |ts| - i
  {
    if i < |ts| {
      FanAfterRaise(f, ts, i, a);
      FanStopsAtRaise(f, ts, i + 1, a);
    } else {
      assert ts[..i] == ts;
    }
  }

  lemma {:induction false} NodeFanStopsAtRaise(f: Fleet, id: int, ns: seq<Target>, i: nat, drones: PyVal)
    requires i <= |ns| && NodeFan(f, id, ns[..i], drones).raised.Some?
    ensures NodeFan(f, id, ns, drones) == NodeFan(f, id, ns[..i], drones)
    decreases |ns| - i
  {
    if i < |ns| {
      NodeFanAfterRaise(f, id, ns, i, drones);
      NodeFanStopsAtRaise(f, id, ns, i + 1, drones);
    } else {
      assert ns[..i] == ns;
    }
  }

  lemma {:induction false} AbortedSnoc(ts: seq<Target>, t: Target)
    ensures Aborted(ts + [t]) == if Aborted(ts).Some? then Aborted(ts) else if t.Unconvertible? then Some(t.exc) else None
  {
    if ts != [] {
      assert (ts + [t])[1..] == ts[1..] + [t];
      AbortedSnoc(ts[1..], t);
    }
  }

  lemma AbortedLast(ts: seq<Target>)
    requires ts != []
    ensures var prev := Aborted(ts[..|ts| - 1]);
      Aborted(ts) == if prev.Some? then prev else if ts[|ts| - 1].Unconvertible? then Some(ts[|ts| - 1].exc) else None
  {
    var m := |ts| - 1;
    AbortedSnoc(ts[..m], ts[m]);
    assert ts[..m] + [ts[m]] == ts;
  }

  /** Every target that does not convert carries `ValueError`, the exception of `int()` on a bad text. */
  predicate ValueErrorsOnly(ts: seq<Target>) {
    forall i :: 0 <= i < |ts| && ts[i].Unconvertible? ==> ts[i].exc == ValueError
  }

  lemma AbortedValueError(ts: seq<Target>)
    requires ValueErrorsOnly(ts)
    ensures Aborted(ts).Some? ==> Aborted(ts).value == ValueError
  {
  }

  lemma DronePlanValueErrors(v: View, sel: PyVal)
    ensures OscDronePlanFixed(v, sel).Targets? ==> ValueErrorsOnly(OscDronePlanFixed(v, sel).ts)
  {
  }

  lemma NodePlanValueErrors(v: View, sel: PyVal)
    ensures NodePlan(v, sel).Targets? ==> ValueErrorsOnly(NodePlan(v, sel).ts)
  {
  }

  /** The targets of a list of ids. */
  function AsTargets(ns: seq<int>): (ts: seq<Target>)
    ensures |ts| == |ns| && forall i :: 0 <= i < |ns| ==> ts[i] == Target(ns[i])
  {
    seq(|ns|, i requires 0 <= i < |ns| => Target(ns[i]))
  }

  /** The `set_value` calls of `osc_set_param` over a list of ids: one for each id that lets it through, in order. */
  function SetParamCalls(f: Fleet, ns: seq<int>, group: PyVal, name: PyVal, value: PyVal): (es: seq<Event>)
    ensures |es| <= |ns|
    ensures forall e :: e in es ==> e.SetParamValue? && e.name == ParamName(group, name) && e.value == PyStr(value)
  {
    if ns == [] then []
    else
      var m := |ns| - 1;
      SetParamCalls(f, ns[..m], group, name, value) + StepCalls(f, ns[m], group, name, value)
  }

  /** The `set_value` call `osc_set_param` makes for one id: one if the drone lets it through, none otherwise. */
  function StepCalls(f: Fleet, id: int, group: PyVal, name: PyVal, value: PyVal): (es: seq<Event>)
    ensures |es| <= 1
    ensures es != [] <==> Settable(f, id, group, name)
  {
    if Settable(f, id, group, name) then [SetParamValue(f.drones[Int(id)].cf, ParamName(group, name), PyStr(value))] else []
  }

  /** The handle of each drone of a list of registered ids. */
  function Handles(f: Fleet, ns: seq<int>): (hs: seq<Handle>)
    requires forall i :: 0 <= i < |ns| ==> Int(ns[i]) in f.drones
    ensures |hs| == |ns| && forall i :: 0 <= i < |ns| ==> hs[i] == f.drones[Int(ns[i])].cf
  {
    seq(|ns|, i requires 0 <= i < |ns| => f.drones[Int(ns[i])].cf)
  }

  /** One `set_value(name, value)` call per handle, in order. */
  function SetCalls(hs: seq<Handle>, name: string, value: string): (es: seq<Event>)
    ensures |es| == |hs| && forall i :: 0 <= i < |hs| ==> es[i] == SetParamValue(hs[i], name, value)
  {
    if hs == [] then [] else SetCalls(hs[..|hs| - 1], name, value) + [SetParamValue(hs[|hs| - 1], name, value)]
  }

  /** When every id lets it through, there is one call per id, on that drone's handle, in order. */
  lemma {:induction false} SetParamCallsAll(f: Fleet, ns: seq<int>, group: PyVal, name: PyVal, value: PyVal)
    requires AllSettable(f, ns, group, name)
    ensures SetParamCalls(f, ns, group, name, value) == SetCalls(Handles(f, ns), ParamName(group, name), PyStr(value))
  {
    if ns != [] {
      var m := |ns| - 1;
      var init := ns[..m];
      SetParamCallsLast(f, ns, group, name, value);
      AllSettableInit(f, ns, group, name);
      SetParamCallsAll(f, init, group, name, value);
      HandlesInit(f, ns);
      var hs := Handles(f, ns);
      var pn, pv := ParamName(group, name), PyStr(value);
      assert SetCalls(hs, pn, pv) == SetCalls(hs[..m], pn, pv) + [SetParamValue(hs[m], pn, pv)];
    }
  }

  /** Every id of the list is registered and lets the parameter through. */
  predicate AllSettable(f: Fleet, ns: seq<int>, group: PyVal, name: PyVal) {
    forall i :: 0 <= i < |ns| ==> Int(ns[i]) in f.drones && Settable(f, ns[i], group, name)
  }

  lemma AllSettableInit(f: Fleet, ns: seq<int>, group: PyVal, name: PyVal)
    requires ns != [] && AllSettable(f, ns, group, name)
    ensures Int(ns[|ns| - 1]) in f.drones && Settable(f, ns[|ns| - 1], group, name)
    ensures AllSettable(f, ns[..|ns| - 1], group, name)
  {
    var m := |ns| - 1;
    assert Int(ns[m]) in f.drones && Settable(f, ns[m], group, name);
    forall i | 0 <= i < m
      ensures Int(ns[..m][i]) in f.drones && Settable(f, ns[..m][i], group, name)
    {
      assert ns[..m][i] == ns[i];
    }
  }

  lemma SetParamCallsLast(f: Fleet, ns: seq<int>, group: PyVal, name: PyVal, value: PyVal)
    requires ns != []
    ensures SetParamCalls(f, ns, group, name, value)
      == SetParamCalls(f, ns[..|ns| - 1], group, name, value) + StepCalls(f, ns[|ns| - 1], group, name, value)
  {
  }

  lemma HandlesInit(f: Fleet, ns: seq<int>)
    requires ns != [] && forall i :: 0 <= i < |ns| ==> Int(ns[i]) in f.drones
    ensures Handles(f, ns)[..|ns| - 1] == Handles(f, ns[..|ns| - 1])
  {
  }

  /** `g` is `f` with `calls` appended to its calls and `n` reports appended to its reports. */
  predicate CallsAndReports(f: Fleet, g: Fleet, calls: seq<Event>, n: int) {
    g.(errors := f.errors) == f.(events := f.events + calls)
    && n >= 0 && |g.errors| == |f.errors| + n
    && g.errors[..|f.errors|] == f.errors
  }

  /** One target of `osc_set_param`: the call is made, or one report is added. */
  lemma SetParamStep(g: Fleet, id: int, group: PyVal, name: PyVal, value: PyVal)
    ensures var r := SetParamAt(g, id, group, name, value);
      var calls := StepCalls(g, id, group, name, value);
      r.raised.None? && CallsAndReports(g, r.f, calls, 1 - |calls|)
  {
  }

  /** Two runs that each append calls and reports: the calls of both, and the reports of both after the old ones. */
  lemma ChainCalls(f: Fleet, g: Fleet, h: Fleet, first: seq<Event>, m: int, second: seq<Event>, n: int)
    requires CallsAndReports(f, g, first, m) && CallsAndReports(g, h, second, n)
    ensures CallsAndReports(f, h, first + second, m + n)
  {
    assert f.events + first + second == f.events + (first + second);
    assert h.errors[..|f.errors|] == h.errors[..|g.errors|][..|f.errors|];
  }

  /**
    `osc_set_param` over a list of ids sets the parameter on each drone
    that lets it through, in order; each other drone adds one report and
    does not stop the loop. Nothing else changes.
   */
  lemma {:induction false} SetParamFan(f: Fleet, ns: seq<int>, group: PyVal, name: PyVal, value: PyVal)
    ensures var r := Fan(f, AsTargets(ns), SetParam(group, name, value));
      var calls := SetParamCalls(f, ns, group, name, value);
      r.raised.None? && CallsAndReports(f, r.f, calls, |ns| - |calls|)
  {
    if ns != [] {
      var m := |ns| - 1;
      SetParamFan(f, ns[..m], group, name, value);
      var prev := Fan(f, AsTargets(ns[..m]), SetParam(group, name, value));
      SetParamFanLast(f, ns, group, name, value);
      SetParamFanStep(f, prev.f, ns, group, name, value);
    }
  }

  /** The last id of the list, run after the others: its call, or its report, comes after theirs. */
  lemma SetParamFanStep(f: Fleet, prev: Fleet, ns: seq<int>, group: PyVal, name: PyVal, value: PyVal)
    requires ns != []
    requires var rest := SetParamCalls(f, ns[..|ns| - 1], group, name, value);
      CallsAndReports(f, prev, rest, |ns| - 1 - |rest|)
    ensures var r := SetParamAt(prev, ns[|ns| - 1], group, name, value);
      var calls := SetParamCalls(f, ns, group, name, value);
      r.raised.None? && CallsAndReports(f, r.f, calls, |ns| - |calls|)
  {
    var m := |ns| - 1;
    assert prev.modules == f.modules && prev.drones == f.drones by {
      assert prev.(errors := f.errors).modules == prev.modules;
      assert prev.(errors := f.errors).drones == prev.drones;
    }
    SetParamStep(prev, ns[m], group, name, value);
    var rest := SetParamCalls(f, ns[..m], group, name, value);
    var calls := StepCalls(f, ns[m], group, name, value);
    assert StepCalls(prev, ns[m], group, name, value) == calls;
    var r := SetParamAt(prev, ns[m], group, name, value);
    ChainCalls(f, prev, r.f, rest, m - |rest|, calls, 1 - |calls|);
  }

  lemma SetParamFanLast(f: Fleet, ns: seq<int>, group: PyVal, name: PyVal, value: PyVal)
    requires ns != [] && Fan(f, AsTargets(ns[..|ns| - 1]), SetParam(group, name, value)).raised.None?
    ensures var prev := Fan(f, AsTargets(ns[..|ns| - 1]), SetParam(group, name, value));
      Fan(f, AsTargets(ns), SetParam(group, name, value)) == SetParamAt(prev.f, ns[|ns| - 1], group, name, value)
  {
    var ts := AsTargets(ns);
    assert ts[..|ts| - 1] == AsTargets(ns[..|ns| - 1]);
    assert ts[|ts| - 1] == Target(ns[|ns| - 1]);
    FanNext(f, ts, SetParam(group, name, value));
  }

  /** A `;`-separated list of ids runs the handler on those ids, in the order written. */
  lemma MultiDronesList(f: Fleet, ns: seq<int>, a: Action)
    requires "CRAZYFLIE" in f.modules && |ns| >= 1
    ensures MultiDrones(f, Str(Join(IntStrs(ns), ";")), a) == Fan(f, AsTargets(ns), a)
  {
    SelectorListInOrder(ViewOf(f), ns);
    var p := OscDronePlanFixed(ViewOf(f), Str(Join(IntStrs(ns), ";")));
    assert p.ts == AsTargets(ns);
  }

  /** With every drone of a `;`-list letting it through, `osc_set_param` sets the parameter on each, in the order written. */
  lemma SetParamSelectorList(f: Fleet, ns: seq<int>, group: PyVal, name: PyVal, value: PyVal)
    requires "CRAZYFLIE" in f.modules && |ns| >= 1
    requires AllSettable(f, ns, group, name)
    ensures MultiDrones(f, Str(Join(IntStrs(ns), ";")), SetParam(group, name, value))
      == Ran(f.(events := f.events + SetParamCalls(f, ns, group, name, value)), None)
  {
    var sel := Str(Join(IntStrs(ns), ";"));
    var a := SetParam(group, name, value);
    MultiDronesList(f, ns, a);
    SetParamFan(f, ns, group, name, value);
    var r := Fan(f, AsTargets(ns), a);
    SetParamCallsAll(f, ns, group, name, value);
    assert |SetParamCalls(f, ns, group, name, value)| == |ns|;
    assert r.f.errors == r.f.errors[..|f.errors|] == f.errors;
  }

  /**
    `*` sets the parameter on every connected drone, in registry order, and
    on no other.
   */
  lemma SetParamStar(f: Fleet, ns: seq<int>, group: PyVal, name: PyVal, value: PyVal)
    requires "CRAZYFLIE" in f.modules
    requires ConnectedIds(f.ids, ViewOf(f).drones) == KeysOf(ns)
    ensures var r := MultiDrones(f, Str("*"), SetParam(group, name, value));
      r.raised.None?
      && r.f.(errors := f.errors) == f.(events := f.events + SetParamCalls(f, ns, group, name, value))
  {
    StarCallsConnectedFixed(ViewOf(f), ns);
    var p := OscDronePlanFixed(ViewOf(f), Str("*"));
    assert p.ts == AsTargets(ns);
    SetParamFan(f, ns, group, name, value);
  }

  // ---------------------------------------------------------------------
  // The anchor push

  /** `g` differs from `f` in its error reports at most. */
  predicate OnlyReports(f: Fleet, g: Fleet) {
    g == f.(errors := g.errors)
  }

  /** No node has a stored position, as in the `osc_modules` tree, where no handler stores one. */
  predicate NoPositions(f: Fleet) {
    forall i :: 0 <= i < |f.lpsPositions| ==> f.lpsPositions[i].None?
  }

  lemma NodeBodyNoPositions(f: Fleet, id: int, node: int, drones: PyVal)
    requires NoPositions(f)
    ensures OnlyReports(f, NodeBody(f, id, node, drones).f)
  {
    NoPositionsNoPass(ViewOf(f), Int(node));
  }

  lemma {:induction false} NodeFanNoPositions(f: Fleet, id: int, ns: seq<Target>, drones: PyVal)
    requires NoPositions(f)
    ensures OnlyReports(f, NodeFan(f, id, ns, drones).f)
  {
    if ns != [] {
      var m := |ns| - 1;
      NodeFanNoPositions(f, id, ns[..m], drones);
      var prev := NodeFan(f, id, ns[..m], drones);
      if prev.raised.None? && ns[m].Target? {
        NodeBodyNoPositions(prev.f, id, ns[m].id, drones);
      }
    }
  }

  lemma PushAnchorsAtNoPositions(g: Fleet, id: int, drones: PyVal, nodes: PyVal)
    requires NoPositions(g)
    ensures OnlyReports(g, PushAnchorsAt(g, id, drones, nodes).f)
  {
    var p := NodePlan(ViewOf(g), nodes);
    if p.Targets? {
      NodeFanNoPositions(g, id, p.ts, drones);
    }
  }

  lemma PushAnchorsNoPositions(g: Fleet, id: int, drones: PyVal, nodes: PyVal)
    requires NoPositions(g)
    ensures OnlyReports(g, Catch(Body(g, PushAnchors(drones, nodes), id)).f)
  {
    BodyPushAnchors(g, id, drones, nodes);
    PushAnchorsAtNoPositions(g, id, drones, nodes);
  }

  lemma FanLast(f: Fleet, ts: seq<Target>, a: Action)
    requires ts != []
    ensures var prev := Fan(f, ts[..|ts| - 1], a);
      Fan(f, ts, a) == if prev.raised.Some? then prev else match ts[|ts| - 1]
        case Unconvertible(e) => Ran(prev.f, Some(e))
        case Target(id) => Catch(Body(prev.f, a, id))
  {
  }

  lemma {:induction false} FanPushNoPositions(f: Fleet, ts: seq<Target>, drones: PyVal, nodes: PyVal)
    requires NoPositions(f)
    ensures OnlyReports(f, Fan(f, ts, PushAnchors(drones, nodes)).f)
  {
    if ts != [] {
      var m := |ts| - 1;
      FanPushNoPositions(f, ts[..m], drones, nodes);
      var prev := Fan(f, ts[..m], PushAnchors(drones, nodes));
      FanLast(f, ts, PushAnchors(drones, nodes));
      if prev.raised.None? && ts[m].Target? {
        PushAnchorsNoPositions(prev.f, ts[m].id, drones, nodes);
      }
    }
  }

  /**
    While no node has a stored position, `osc_update_lps_pos` makes no
    call on any drone and changes nothing but the error reports, whatever
    its selectors.
   */
  lemma UpdateLpsPosNoPositions(f: Fleet, drones: PyVal, nodes: PyVal)
    requires NoPositions(f)
    ensures OnlyReports(f, UpdateLpsPos(f, drones, nodes).f)
  {
    var p := OscDronePlanFixed(ViewOf(f), drones);
    if p.Targets? {
      FanPushNoPositions(f, p.ts, drones, nodes);
    }
  }

  /**
    `g` follows `f` by calls and reports only: the registry, the module
    set, the client and LPS tables are those of `f`, and the traces of `f`
    are prefixes of those of `g`.
   */
  predicate Appends(f: Fleet, g: Fleet) {
    g == f.(events := g.events, errors := g.errors) && f.events <= g.events && f.errors <= g.errors
  }

  lemma AppendsTrans(f: Fleet, g: Fleet, h: Fleet)
    requires Appends(f, g) && Appends(g, h)
    ensures Appends(f, h)
  {
    assert h.events[..|f.events|] == h.events[..|g.events|][..|f.events|];
    assert h.errors[..|f.errors|] == h.errors[..|g.errors|][..|f.errors|];
  }

  lemma CatchAppends(f: Fleet, r: Ran)
    requires Appends(f, r.f)
    ensures Appends(f, Catch(r).f)
  {
    if r.raised.Some? {
      AppendsTrans(f, r.f, Catch(r).f);
    }
  }

  lemma SetParamAppends(f: Fleet, id: int, group: PyVal, name: PyVal, value: PyVal)
    ensures Appends(f, SetParamAt(f, id, group, name, value).f)
  {
  }

  lemma {:induction false} FanSetParamAppends(f: Fleet, ts: seq<Target>, group: PyVal, name: PyVal, value: PyVal)
    ensures Appends(f, Fan(f, ts, SetParam(group, name, value)).f)
  {
    var a := SetParam(group, name, value);
    if ts != [] {
      var m := |ts| - 1;
      FanSetParamAppends(f, ts[..m], group, name, value);
      var prev := Fan(f, ts[..m], a);
      if prev.raised.None? && ts[m].Target? {
        var r := SetParamAt(prev.f, ts[m].id, group, name, value);
        SetParamAppends(prev.f, ts[m].id, group, name, value);
        assert Fan(f, ts, a) == Catch(r);
        CatchAppends(prev.f, r);
        AppendsTrans(f, prev.f, Catch(r).f);
      }
    }
  }

  lemma MultiDronesSetParamAppends(f: Fleet, sel: PyVal, group: PyVal, name: PyVal, value: PyVal)
    ensures Appends(f, MultiDrones(f, sel, SetParam(group, name, value)).f)
  {
    var p := OscDronePlanFixed(ViewOf(f), sel);
    if p.Targets? {
      FanSetParamAppends(f, p.ts, group, name, value);
    }
  }

  lemma PushPositionAppends(f: Fleet, node: int, pos: Position, drones: PyVal)
    ensures Appends(f, PushPosition(f, node, pos, drones).f)
  {
    var anchor := Str("anchorpos");
    var rx := MultiDrones(f, drones, SetParam(anchor, Str(AnchorParam(node, "x")), pos.x));
    MultiDronesSetParamAppends(f, drones, anchor, Str(AnchorParam(node, "x")), pos.x);
    if rx.raised.None? {
      var ry := MultiDrones(rx.f, drones, SetParam(anchor, Str(AnchorParam(node, "y")), pos.y));
      MultiDronesSetParamAppends(rx.f, drones, anchor, Str(AnchorParam(node, "y")), pos.y);
      AppendsTrans(f, rx.f, ry.f);
      if ry.raised.None? {
        var rz := MultiDrones(ry.f, drones, SetParam(anchor, Str(AnchorParam(node, "z")), pos.z));
        MultiDronesSetParamAppends(ry.f, drones, anchor, Str(AnchorParam(node, "z")), pos.z);
        AppendsTrans(f, ry.f, rz.f);
      }
    }
  }

  lemma NodeBodyAppends(f: Fleet, id: int, node: int, drones: PyVal)
    ensures Appends(f, NodeBody(f, id, node, drones).f)
  {
    var v := ViewOf(f);
    if Then(DroneConnected(v, Int(id)), LpsNodeHasPosition(v, Int(node))) == Pass {
      PushPositionAppends(f, node, f.lpsPositions[PyIndex(|f.lpsPositions|, node).value].value, drones);
    }
  }

  lemma {:induction false} NodeFanAppends(f: Fleet, id: int, ns: seq<Target>, drones: PyVal)
    ensures Appends(f, NodeFan(f, id, ns, drones).f)
  {
    if ns != [] {
      var m := |ns| - 1;
      NodeFanAppends(f, id, ns[..m], drones);
      var prev := NodeFan(f, id, ns[..m], drones);
      if prev.raised.None? && ns[m].Target? {
        var r := NodeBody(prev.f, id, ns[m].id, drones);
        NodeBodyAppends(prev.f, id, ns[m].id, drones);
        CatchAppends(prev.f, r);
        AppendsTrans(f, prev.f, Catch(r).f);
      }
    }
  }

  lemma PushAnchorsAtAppends(f: Fleet, id: int, drones: PyVal, nodes: PyVal)
    ensures Appends(f, PushAnchorsAt(f, id, drones, nodes).f)
  {
    var p := NodePlan(ViewOf(f), nodes);
    if p.Targets? {
      NodeFanAppends(f, id, p.ts, drones);
    }
  }

  lemma {:induction false} FanPushAppends(f: Fleet, ts: seq<Target>, drones: PyVal, nodes: PyVal)
    ensures Appends(f, Fan(f, ts, PushAnchors(drones, nodes)).f)
  {
    var a := PushAnchors(drones, nodes);
    if ts != [] {
      var m := |ts| - 1;
      FanPushAppends(f, ts[..m], drones, nodes);
      var prev := Fan(f, ts[..m], a);
      if prev.raised.None? && ts[m].Target? {
        var r := PushAnchorsAt(prev.f, ts[m].id, drones, nodes);
        PushAnchorsAtAppends(prev.f, ts[m].id, drones, nodes);
        BodyPushAnchors(prev.f, ts[m].id, drones, nodes);
        FanStep(f, ts, m, a);
        assert ts[..m + 1] == ts;
        CatchAppends(prev.f, r);
        AppendsTrans(f, prev.f, Catch(r).f);
      }
    }
  }

  /**
    `osc_update_lps_pos` only makes calls and reports errors: the registry,
    the LPS table and everything else are left as they were, whatever its
    selectors.
   */
  lemma UpdateLpsPosAppends(f: Fleet, drones: PyVal, nodes: PyVal)
    ensures Appends(f, UpdateLpsPos(f, drones, nodes).f)
  {
    var p := OscDronePlanFixed(ViewOf(f), drones);
    if p.Targets? {
      FanPushAppends(f, p.ts, drones, nodes);
    }
  }

  /** `osc_set_param` on the selector `str(d)` of one drone that lets it through: exactly its one call. */
  lemma SetParamOne(f: Fleet, d: int, group: PyVal, name: PyVal, value: PyVal)
    requires Settable(f, d, group, name)
    ensures MultiDrones(f, Str(IntToStr(d)), SetParam(group, name, value))
      == Ran(f.(events := f.events + [SetParamValue(f.drones[Int(d)].cf, ParamName(group, name), PyStr(value))]), None)
  {
    var a := SetParam(group, name, value);
    SingleSelector(d);
    assert OscDronePlanFixed(ViewOf(f), Str(IntToStr(d))) == Targets([Target(d)]);
    assert [Target(d)][..0] == [];
    assert Fan(f, [Target(d)], a) == Catch(Body(f, a, d));
  }

  /** The full name of the anchor parameter of one axis of node `n`. */
  function AnchorName(n: int, axis: string): string {
    ParamName(Str("anchorpos"), Str(AnchorParam(n, axis)))
  }

  /** That name is `anchorpos.anchor{n}` followed by the axis. */
  lemma AnchorNameSpelled(n: int, axis: string)
    ensures AnchorName(n, axis) == "anchorpos.anchor" + IntToStr(n) + axis
  {
    assert "anchorpos" + "." + "anchor" == "anchorpos.anchor";
  }

  /** The three calls that push the position `p` of node `n` to a drone. */
  function AnchorCalls(cf: Handle, n: int, p: Position): seq<Event> {
    [SetParamValue(cf, AnchorName(n, "x"), PyStr(p.x)),
     SetParamValue(cf, AnchorName(n, "y"), PyStr(p.y)),
     SetParamValue(cf, AnchorName(n, "z"), PyStr(p.z))]
  }

  /** The anchor parameters of node `n` are in the drone's parameter table. */
  predicate AnchorsSettable(f: Fleet, d: int, n: int) {
    Settable(f, d, Str("anchorpos"), Str(AnchorParam(n, "x")))
    && Settable(f, d, Str("anchorpos"), Str(AnchorParam(n, "y")))
    && Settable(f, d, Str("anchorpos"), Str(AnchorParam(n, "z")))
  }

  /** A connected drone and a node below the count with a stored position pass both checks of the body. */
  lemma NodeChecksPass(f: Fleet, d: int, n: int)
    requires ConnectedId(f, d) && "LPS" in f.modules
    requires 0 <= n < f.lpsNodeNumber && n < |f.lpsPositions| && f.lpsPositions[n].Some?
    ensures Then(DroneConnected(ViewOf(f), Int(d)), LpsNodeHasPosition(ViewOf(f), Int(n))) == Pass
    ensures PyIndex(|f.lpsPositions|, n) == Some(n)
  {
    var v := ViewOf(f);
    assert DroneConnected(v, Int(d)) == Pass;
  }

  lemma AppendThree(s: seq<Event>, a: Event, b: Event, c: Event)
    ensures s + [a] + [b] + [c] == s + [a, b, c]
  {
  }

  /** Pushing a position to the one drone a selector `str(d)` names: its three anchor calls, in order. */
  lemma PushPositionOne(f: Fleet, d: int, n: int, p: Position)
    requires AnchorsSettable(f, d, n)
    ensures PushPosition(f, n, p, Str(IntToStr(d))) == Ran(f.(events := f.events + AnchorCalls(f.drones[Int(d)].cf, n, p)), None)
  {
    var drones := Str(IntToStr(d));
    var cf := f.drones[Int(d)].cf;
    var gx, gy, gz := Str(AnchorParam(n, "x")), Str(AnchorParam(n, "y")), Str(AnchorParam(n, "z"));
    var anchor := Str("anchorpos");
    SetParamOne(f, d, anchor, gx, p.x);
    var fx := f.(events := f.events + [SetParamValue(cf, AnchorName(n, "x"), PyStr(p.x))]);
    assert MultiDrones(f, drones, SetParam(anchor, gx, p.x)) == Ran(fx, None);
    assert Settable(fx, d, anchor, gy) by {
      assert fx.modules == f.modules && fx.drones == f.drones;
    }
    SetParamOne(fx, d, anchor, gy, p.y);
    var fy := fx.(events := fx.events + [SetParamValue(cf, AnchorName(n, "y"), PyStr(p.y))]);
    assert MultiDrones(fx, drones, SetParam(anchor, gy, p.y)) == Ran(fy, None);
    assert Settable(fy, d, anchor, gz) by {
      assert fy.modules == f.modules && fy.drones == f.drones;
    }
    SetParamOne(fy, d, anchor, gz, p.z);
    var fz := fy.(events := fy.events + [SetParamValue(cf, AnchorName(n, "z"), PyStr(p.z))]);
    assert MultiDrones(fy, drones, SetParam(anchor, gz, p.z)) == Ran(fz, None);
    assert PushPosition(f, n, p, drones) == Ran(fz, None);
    var ex, ey, ez := SetParamValue(cf, AnchorName(n, "x"), PyStr(p.x)), SetParamValue(cf, AnchorName(n, "y"), PyStr(p.y)), SetParamValue(cf, AnchorName(n, "z"), PyStr(p.z));
    assert AnchorCalls(cf, n, p) == [ex, ey, ez];
    AppendThree(f.events, ex, ey, ez);
  }

  /** The body for one connected drone and one node with a stored position, the drone selector naming that drone. */
  lemma NodeBodyPushes(f: Fleet, d: int, n: int, p: Position)
    requires "LPS" in f.modules && AnchorsSettable(f, d, n)
    requires 0 <= n < f.lpsNodeNumber && n < |f.lpsPositions| && f.lpsPositions[n] == Some(p)
    ensures NodeBody(f, d, n, Str(IntToStr(d))) == Ran(f.(events := f.events + AnchorCalls(f.drones[Int(d)].cf, n, p)), None)
  {
    NodeChecksPass(f, d, n);
    assert f.lpsPositions[PyIndex(|f.lpsPositions|, n).value].value == p;
    PushPositionOne(f, d, n, p);
  }

  /** The loop over nodes with a single node is that node's body, its exception caught. */
  lemma NodeFanOne(f: Fleet, id: int, node: int, drones: PyVal)
    ensures NodeFan(f, id, [Target(node)], drones) == Catch(NodeBody(f, id, node, drones))
  {
    assert [Target(node)][..0] == [];
  }

  /** The decorated handler of the anchor push is `multi_nodes` for that drone. */
  lemma BodyPushAnchors(f: Fleet, id: int, drones: PyVal, nodes: PyVal)
    ensures Body(f, PushAnchors(drones, nodes), id) == PushAnchorsAt(f, id, drones, nodes)
  {
  }

  /** With a node selector that names a single node, `multi_nodes` is the loop over that one node. */
  lemma PushAnchorsOneNode(f: Fleet, id: int, node: int, drones: PyVal, nodes: PyVal)
    requires NodePlan(ViewOf(f), nodes) == Targets([Target(node)])
    ensures PushAnchorsAt(f, id, drones, nodes) == NodeFan(f, id, [Target(node)], drones)
  {
  }

  /** The loop over drones with a single drone is that drone's body, its exception caught. */
  lemma FanOne(f: Fleet, id: int, a: Action)
    ensures Fan(f, [Target(id)], a) == Catch(Body(f, a, id))
  {
    assert [Target(id)][..0] == [];
  }

  /**
    For one drone and one node with a stored position, `osc_update_lps_pos`
    sets the node's `x`, `y` and `z` as `anchorpos.anchor{n}x`, `y`, `z` on
    that drone, from the first, second and third component, and does
    nothing else.
   */
  lemma UpdateLpsPosOneNode(f: Fleet, d: int, n: int, p: Position)
    requires "LPS" in f.modules && AnchorsSettable(f, d, n)
    requires 0 <= n < f.lpsNodeNumber && n < |f.lpsPositions| && f.lpsPositions[n] == Some(p)
    ensures UpdateLpsPos(f, Str(IntToStr(d)), Str(IntToStr(n)))
      == Ran(f.(events := f.events + AnchorCalls(f.drones[Int(d)].cf, n, p)), None)
  {
    var drones := Str(IntToStr(d));
    var nodes := Str(IntToStr(n));
    var a := PushAnchors(drones, nodes);
    var rz := Ran(f.(events := f.events + AnchorCalls(f.drones[Int(d)].cf, n, p)), None);
    NodeBodyPushes(f, d, n, p);
    SingleSelector(n);
    assert NodePlan(ViewOf(f), nodes) == Targets([Target(n)]);
    BodyPushAnchors(f, d, drones, nodes);
    PushAnchorsOneNode(f, d, n, drones, nodes);
    NodeFanOne(f, d, n, drones);
    SingleSelector(d);
    assert OscDronePlanFixed(ViewOf(f), drones) == Targets([Target(d)]);
    FanOne(f, d, a);
    assert Then(OscRequires(ViewOf(f), "LPS"), OscRequires(ViewOf(f), "PARAM")) == Pass;
  }

  // ---------------------------------------------------------------------
  // The same decorators as methods on the server

  /** One more turn of the loop over drones, when the turns before raised nothing. */
  lemma FanStep(f: Fleet, ts: seq<Target>, i: nat, a: Action)
    requires i < |ts| && Fan(f, ts[..i], a).raised.None?
    ensures var prev := Fan(f, ts[..i], a);
      Fan(f, ts[..i + 1], a) == match ts[i]
        case Unconvertible(e) => Ran(prev.f, Some(e))
        case Target(id) => Catch(Body(prev.f, a, id))
  {
    var p := ts[..i + 1];
    assert p[..|p| - 1] == ts[..i];
    FanNext(f, p, a);
  }

  lemma FanNext(f: Fleet, ts: seq<Target>, a: Action)
    requires ts != [] && Fan(f, ts[..|ts| - 1], a).raised.None?
    ensures var prev := Fan(f, ts[..|ts| - 1], a);
      Fan(f, ts, a) == match ts[|ts| - 1]
        case Unconvertible(e) => Ran(prev.f, Some(e))
        case Target(id) => Catch(Body(prev.f, a, id))
  {}

  /** One more turn of the loop over nodes, when the turns before raised nothing. */
  lemma NodeFanStep(f: Fleet, id: int, ns: seq<Target>, i: nat, drones: PyVal)
    requires i < |ns| && NodeFan(f, id, ns[..i], drones).raised.None?
    ensures var prev := NodeFan(f, id, ns[..i], drones);
      NodeFan(f, id, ns[..i + 1], drones) == match ns[i]
        case Unconvertible(e) => Ran(prev.f, Some(e))
        case Target(node) => Catch(NodeBody(prev.f, id, node, drones))
  {
    var p := ns[..i + 1];
    assert p[..|p| - 1] == ns[..i];
    NodeFanNext(f, id, p, drones);
  }

  lemma NodeFanNext(f: Fleet, id: int, ns: seq<Target>, drones: PyVal)
    requires ns != [] && NodeFan(f, id, ns[..|ns| - 1], drones).raised.None?
    ensures var prev := NodeFan(f, id, ns[..|ns| - 1], drones);
      NodeFan(f, id, ns, drones) == match ns[|ns| - 1]
        case Unconvertible(e) => Ran(prev.f, Some(e))
        case Target(node) => Catch(NodeBody(prev.f, id, node, drones))
  {}

  /** A turn of the loop over drones that calls the handler: its result, the exception reported. */
  lemma FanTurn(f: Fleet, ts: seq<Target>, i: nat, a: Action, g: Fleet, body: Ran, h: Fleet)
    requires i < |ts| && ts[i].Target? && Ran(g, None) == Fan(f, ts[..i], a)
    requires body == Body(g, a, ts[i].id) && Ran(h, None) == Catch(body)
    ensures Ran(h, None) == Fan(f, ts[..i + 1], a)
  {
    FanStep(f, ts, i, a);
  }

  /** A target that does not convert ends the loop over drones with its exception. */
  lemma FanAbort(f: Fleet, ts: seq<Target>, i: nat, a: Action)
    requires i < |ts| && ts[i].Unconvertible? && Fan(f, ts[..i], a).raised.None?
    ensures Fan(f, ts, a) == Ran(Fan(f, ts[..i], a).f, Some(ts[i].exc))
  {
    FanStep(f, ts, i, a);
    FanStopsAtRaise(f, ts, i + 1, a);
  }

  /** A node that does not convert ends the loop over nodes with its exception. */
  lemma NodeFanAbort(f: Fleet, id: int, ns: seq<Target>, i: nat, drones: PyVal)
    requires i < |ns| && ns[i].Unconvertible? && NodeFan(f, id, ns[..i], drones).raised.None?
    ensures NodeFan(f, id, ns, drones) == Ran(NodeFan(f, id, ns[..i], drones).f, Some(ns[i].exc))
  {
    NodeFanStep(f, id, ns, i, drones);
    NodeFanStopsAtRaise(f, id, ns, i + 1, drones);
  }

  /** A turn of the loop over nodes that calls the body: its result, the exception reported. */
  lemma NodeFanTurn(f: Fleet, id: int, ns: seq<Target>, i: nat, drones: PyVal, g: Fleet, body: Ran, h: Fleet)
    requires i < |ns| && ns[i].Target? && Ran(g, None) == NodeFan(f, id, ns[..i], drones)
    requires body == NodeBody(g, id, ns[i].id, drones) && Ran(h, None) == Catch(body)
    ensures Ran(h, None) == NodeFan(f, id, ns[..i + 1], drones)
  {
    NodeFanStep(f, id, ns, i, drones);
  }

  /** The `except` of both loops on the server: the exception, if any, is reported. */
  method CatchOn(srv: Server, raised: Option<Exc>)
    modifies srv
    ensures Ran(srv.Snap(), None) == Catch(Ran(old(srv.Snap()), raised))
    ensures srv.Routing() == old(srv.Routing())
  {
    if raised.Some? {
      srv.errors := srv.errors + [Caught(raised.value)];
    }
  }

  /** `multi_drones` wrapping a handler: the selector expanded, then the loop over its targets. */
  method RunMultiDrones(srv: Server, sel: PyVal, a: Action) returns (raised: Option<Exc>)
    modifies srv
    ensures Ran(srv.Snap(), raised) == MultiDrones(old(srv.Snap()), sel, a)
    ensures srv.Routing() == old(srv.Routing())
    decreases Rank(a), 5, 0
  {
    var p := OscDronePlanFixed(srv.View(), sel);
    if p.Refused? {
      srv.errors := srv.errors + [p.report];
      return None;
    }
    raised := RunFan(srv, p.ts, a);
  }

  /** The loop of `multi_drones`: `int()` outside the `try`, the handler inside it. */
  method RunFan(srv: Server, ts: seq<Target>, a: Action) returns (raised: Option<Exc>)
    modifies srv
    ensures Ran(srv.Snap(), raised) == Fan(old(srv.Snap()), ts, a)
    ensures srv.Routing() == old(srv.Routing())
    decreases Rank(a), 4, |ts|
  {
    ghost var f0 := srv.Snap();
    var i := 0;
    while i < |ts|
      invariant 0 <= i <= |ts|
      invariant Ran(srv.Snap(), None) == Fan(f0, ts[..i], a)
      invariant srv.Routing() == old(srv.Routing())
    {
      match ts[i]
      case Unconvertible(e) =>
        FanAbort(f0, ts, i, a);
        return Some(e);
      case Target(id) =>
        ghost var g := srv.Snap();
        var r := RunBody(srv, a, id);
        ghost var body := Ran(srv.Snap(), r);
        CatchOn(srv, r);
        FanTurn(f0, ts, i, a, g, body, srv.Snap());
      i := i + 1;
    }
    assert ts[..i] == ts;
    return None;
  }

  /** The decorated handler for one drone id. */
  method RunBody(srv: Server, a: Action, id: int) returns (raised: Option<Exc>)
    modifies srv
    ensures Ran(srv.Snap(), raised) == Body(old(srv.Snap()), a, id)
    ensures srv.Routing() == old(srv.Routing())
    decreases Rank(a), 3, 0
  {
    match a
    case SetParam(group, name, value) => raised := SetParamOn(srv, id, group, name, value);
    case SendParamTocVariable(variable) => raised := SendTocVariableOn(srv, id, variable);
    case SendParamToc => raised := SendTocOn(srv, id);
    case GetAllValues => raised := GetAllValuesOn(srv, id);
    case AddLog(logName, period) => raised := AddLogOn(srv, id, logName, period);
    case AddLogVariable(logName, variable, varType) => raised := LogAddVariableOn(srv, id, logName, variable, varType);
    case StartLog(logName) => raised := LogStartOn(srv, id, logName);
    case SendLogToc => raised := LogSendTocOn(srv, id);
    case PushAnchors(drones, nodes) => raised := RunPushAnchors(srv, id, drones, nodes);
  }

  /** `multi_nodes` for one drone id: the node selector expanded, then the loop over its nodes. */
  method RunPushAnchors(srv: Server, id: int, drones: PyVal, nodes: PyVal) returns (raised: Option<Exc>)
    modifies srv
    ensures Ran(srv.Snap(), raised) == PushAnchorsAt(old(srv.Snap()), id, drones, nodes)
    ensures srv.Routing() == old(srv.Routing())
    decreases 1, 2, 0
  {
    var p := NodePlan(srv.View(), nodes);
    if p.Refused? {
      srv.errors := srv.errors + [p.report];
      return None;
    }
    raised := RunNodeFan(srv, id, p.ts, drones);
  }

  /** The loop of `multi_nodes`, with the same `try` placement as that of `multi_drones`. */
  method RunNodeFan(srv: Server, id: int, ns: seq<Target>, drones: PyVal) returns (raised: Option<Exc>)
    modifies srv
    ensures Ran(srv.Snap(), raised) == NodeFan(old(srv.Snap()), id, ns, drones)
    ensures srv.Routing() == old(srv.Routing())
    decreases 1, 1, |ns|
  {
    ghost var f0 := srv.Snap();
    var i := 0;
    while i < |ns|
      invariant 0 <= i <= |ns|
      invariant Ran(srv.Snap(), None) == NodeFan(f0, id, ns[..i], drones)
      invariant srv.Routing() == old(srv.Routing())
    {
      match ns[i]
      case Unconvertible(e) =>
        NodeFanAbort(f0, id, ns, i, drones);
        return Some(e);
      case Target(node) =>
        ghost var g := srv.Snap();
        var r := RunNodeBody(srv, id, node, drones);
        ghost var body := Ran(srv.Snap(), r);
        CatchOn(srv, r);
        NodeFanTurn(f0, id, ns, i, drones, g, body, srv.Snap());
      i := i + 1;
    }
    assert ns[..i] == ns;
    return None;
  }

  /** The body of `osc_update_lps_pos` for one drone and one node. */
  method RunNodeBody(srv: Server, id: int, node: int, drones: PyVal) returns (raised: Option<Exc>)
    modifies srv
    ensures Ran(srv.Snap(), raised) == NodeBody(old(srv.Snap()), id, node, drones)
    ensures srv.Routing() == old(srv.Routing())
    decreases 1, 0, 1
  {
    var v := srv.View();
    var verdict := Then(DroneConnected(v, Int(id)), LpsNodeHasPosition(v, Int(node)));
    if verdict != Pass {
      raised := srv.Decline(verdict);
      return;
    }
    var pos := srv.lpsPositions[PyIndex(|srv.lpsPositions|, node).value].value;
    raised := RunPushPosition(srv, node, pos, drones);
  }

  /** The three `osc_set_param` calls of one node, the first exception skipping the rest. */
  method RunPushPosition(srv: Server, node: int, pos: Position, drones: PyVal) returns (raised: Option<Exc>)
    modifies srv
    ensures Ran(srv.Snap(), raised) == PushPosition(old(srv.Snap()), node, pos, drones)
    ensures srv.Routing() == old(srv.Routing())
    decreases 1, 0, 0
  {
    var anchor := Str("anchorpos");
    raised := RunMultiDrones(srv, drones, SetParam(anchor, Str(AnchorParam(node, "x")), pos.x));
    if raised.Some? {
      return;
    }
    raised := RunMultiDrones(srv, drones, SetParam(anchor, Str(AnchorParam(node, "y")), pos.y));
    if raised.Some? {
      return;
    }
    raised := RunMultiDrones(srv, drones, SetParam(anchor, Str(AnchorParam(node, "z")), pos.z));
  }

  /** `/{drones}/lps/{nodes}/update_pos` as routed. */
  method RunUpdateLpsPos(srv: Server, drones: PyVal, nodes: PyVal) returns (raised: Option<Exc>)
    modifies srv
    ensures Ran(srv.Snap(), raised) == UpdateLpsPos(old(srv.Snap()), drones, nodes)
    ensures srv.Routing() == old(srv.Routing())
  {
    var v := srv.View();
    var verdict := Then(OscRequires(v, "LPS"), OscRequires(v, "PARAM"));
    if verdict != Pass {
      raised := srv.Decline(verdict);
      return;
    }
    raised := RunMultiDrones(srv, drones, PushAnchors(drones, nodes));
  }
}
