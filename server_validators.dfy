/**
  The validator decorators of the `server_osc_modules` tree. Its
  `osc_requires`, `drone_exists`, `log_exists`, `one_drone_is_connected`
  and `drone_connected` are the same checks as the other tree's and are
  not repeated here; this module holds the checks that differ or are new.
 */
module ServerValidators {
  import opened Wrappers
  import opened Text
  import opened Registry
  import opened OscValidators

  /**
    `lps_node_exists`: an index passes iff it is below `lps_node_number`
    (negative ones included); otherwise the "Bad node_id" report, built with
    `str()`, is all that happens.
   */
  function LpsNodeExists(v: View, arg: PyVal): (r: Verdict)
    ensures r == Pass <==> "LPS" in v.modules && ToInt(arg).Some? && ToInt(arg).value < v.lpsNodeNumber
    ensures "LPS" in v.modules && ToInt(arg).Some? && ToInt(arg).value >= v.lpsNodeNumber ==>
      r == Reject(BadNode(ToInt(arg).value, v.lpsNodeNumber))
    ensures r.Raise? ==> r == Raise(ValueError) && ToInt(arg).None?
  {
    if "LPS" !in v.modules then OscRequires(v, "LPS")
    else match ToInt(arg)
      case None => Raise(ValueError)
      case Some(id) => if id < v.lpsNodeNumber then Pass else Reject(BadNode(id, v.lpsNodeNumber))
  }

  /** Both versions of the node check let the same indices through; only the failure differs. */
  lemma LpsNodeChecksAgree(v: View, arg: PyVal)
    ensures LpsNodeExists(v, arg) == Pass <==> LpsNodeExistsAsWritten(v, arg) == Pass
    ensures LpsNodeExistsAsWritten(v, arg) == Raise(TypeError) <==> LpsNodeExists(v, arg).Reject? && LpsNodeExists(v, arg).report.BadNode?
  {
  }

  /** The position a Python list index `i` designates in a list of length `len`, negative indices counting from the end. */
  function PyIndex(len: nat, i: int): (k: Option<nat>)
    ensures k.Some? <==> -(len as int) <= i < len
    ensures k.Some? ==> k.value < len && (k.value == i || k.value == len + i)
  {
    if 0 <= i < len then Some(i) else if -(len as int) <= i < 0 then Some(len + i) else None
  }

  /**
    `lps_node_has_position`: `lps_node_exists`, then `lps_positions[node_id]`
    is not `None`. The list is never resized, so an index that passes the
    first check can still be out of its range and raise `IndexError`.
   */
  function LpsNodeHasPosition(v: View, arg: PyVal): (r: Verdict)
    ensures r == Pass <==>
      LpsNodeExists(v, arg) == Pass
      && PyIndex(|v.lpsPositions|, ToInt(arg).value).Some?
      && v.lpsPositions[PyIndex(|v.lpsPositions|, ToInt(arg).value).value].Some?
    ensures LpsNodeExists(v, arg) != Pass ==> r == LpsNodeExists(v, arg)
    ensures LpsNodeExists(v, arg) == Pass && PyIndex(|v.lpsPositions|, ToInt(arg).value).None? ==> r == Raise(IndexError)
    ensures (LpsNodeExists(v, arg) == Pass && 0 <= ToInt(arg).value < |v.lpsPositions|
             && v.lpsPositions[ToInt(arg).value].None?) ==> r == Reject(NoPosition(ToInt(arg).value))
  {
    if LpsNodeExists(v, arg) != Pass then LpsNodeExists(v, arg)
    else
      var id := ToInt(arg).value;
      match PyIndex(|v.lpsPositions|, id)
      case None => Raise(IndexError)
      case Some(k) => if v.lpsPositions[k].None? then Reject(NoPosition(id)) else Pass
  }

  /** When no position was ever stored, no node passes `lps_node_has_position`. */
  lemma NoPositionsNoPass(v: View, arg: PyVal)
    requires forall i :: 0 <= i < |v.lpsPositions| ==> v.lpsPositions[i].None?
    ensures LpsNodeHasPosition(v, arg) != Pass
  {
  }

  /** `log_not_started`: LOG, `log_exists`, then the logger's `started` flag is false. */
  function LogNotStarted(v: View, droneArg: PyVal, logArg: PyVal): (r: Verdict)
    ensures r == Pass <==>
      LogExists(v, droneArg, logArg) == Pass && !v.drones[Key(droneArg)].logs.value[PyStr(logArg)]
    ensures LogExists(v, droneArg, logArg) != Pass ==> r == LogExists(v, droneArg, logArg)
    ensures LogExists(v, droneArg, logArg) == Pass && v.drones[Key(droneArg)].logs.value[PyStr(logArg)] ==>
      r == Reject(LogStarted(PyStr(logArg), ToInt(droneArg).value))
  {
    if "LOG" !in v.modules then OscRequires(v, "LOG")
    else if LogExists(v, droneArg, logArg) != Pass then LogExists(v, droneArg, logArg)
    else
      var id := ToInt(droneArg).value;
      var name := PyStr(logArg);
      if v.drones[Int(id)].logs.value[name] then Reject(LogStarted(name, id)) else Pass
  }

  /**
    `param_exists`: PARAM, `drone_connected`, then the group is in the
    drone's parameter TOC and the name is in that group.
   */
  function ParamExists(v: View, droneArg: PyVal, group: PyVal, name: PyVal): (r: Verdict)
    ensures r == Pass <==>
      "PARAM" in v.modules && DroneConnected(v, droneArg) == Pass
      && PyStr(group) in Groups(v.drones[Key(droneArg)].paramToc)
      && PyStr(name) in TocNames(v.drones[Key(droneArg)].paramToc, PyStr(group))
    ensures "PARAM" in v.modules && DroneConnected(v, droneArg) != Pass ==> r == DroneConnected(v, droneArg)
    ensures "PARAM" in v.modules && DroneConnected(v, droneArg) == Pass && r != Pass ==>
      r == Reject(ParamNotFound(PyStr(group) + "." + PyStr(name), ToInt(droneArg).value))
  {
    if "PARAM" !in v.modules then OscRequires(v, "PARAM")
    else if DroneConnected(v, droneArg) != Pass then DroneConnected(v, droneArg)
    else
      var id := ToInt(droneArg).value;
      var toc := v.drones[Int(id)].paramToc;
      var g := PyStr(group);
      var n := PyStr(name);
      if g in Groups(toc) && n in TocNames(toc, g) then Pass
      else Reject(ParamNotFound(g + "." + n, id))
  }

  /** Where the as-written check raises, the corrected one decides by the TOC; elsewhere they agree. */
  lemma ParamChecksAgreeOffToc(v: View, droneArg: PyVal, group: PyVal, name: PyVal)
    requires !("PARAM" in v.modules && DroneConnected(v, droneArg) == Pass)
    ensures ParamExists(v, droneArg, group, name) == ParamExistsAsWritten(v, droneArg, group, name)
  {
  }

  /**
    `multi_drones` of this tree: the selector goes through `str()`; `*`
    expands to every registry key, connected or not, in insertion order.
   */
  function ServerDronePlan(v: View, sel: PyVal): (p: Plan)
    ensures "CRAZYFLIE" !in v.modules <==> p.Refused?
    ensures "CRAZYFLIE" in v.modules && PyStr(sel) == "*" ==> p == Targets(ConvertVals(v.ids))
    ensures "CRAZYFLIE" in v.modules && PyStr(sel) != "*" ==> p == Targets(ConvertTokens(Split(PyStr(sel), ';')))
  {
    var s := PyStr(sel);
    if "CRAZYFLIE" !in v.modules then Refused(MissingModule("CRAZYFLIE"))
    else if s == "*" then Targets(ConvertVals(v.ids))
    else Targets(TokenTargets(s))
  }

  /** `range(0, n)` as targets. */
  function Range(n: int): (ts: seq<Target>)
    ensures |ts| == if n < 0 then 0 else n
    ensures forall i :: 0 <= i < |ts| ==> ts[i] == Target(i)
  {
    seq(if n < 0 then 0 else n, i => Target(i))
  }

  /** `multi_nodes`: the selector goes through `str()`; `*` expands to `0 .. lps_node_number - 1`. */
  function NodePlan(v: View, sel: PyVal): (p: Plan)
    ensures "LPS" !in v.modules <==> p.Refused?
    ensures "LPS" in v.modules && PyStr(sel) == "*" ==> p == Targets(Range(v.lpsNodeNumber))
    ensures "LPS" in v.modules && PyStr(sel) != "*" ==> p == Targets(ConvertTokens(Split(PyStr(sel), ';')))
  {
    var s := PyStr(sel);
    if "LPS" !in v.modules then Refused(MissingModule("LPS"))
    else if s == "*" then Targets(Range(v.lpsNodeNumber))
    else Targets(TokenTargets(s))
  }

  /** `*` over nodes reaches every index below the node count, in order, and raises nothing. */
  lemma StarNodesAll(v: View)
    requires "LPS" in v.modules && v.lpsNodeNumber >= 0
    ensures var p := NodePlan(v, Str("*"));
      p.Targets? && Called(p.ts) == seq(v.lpsNodeNumber, i => i) && Aborted(p.ts).None?
  {
    var ts := Range(v.lpsNodeNumber);
    CalledAllConvertible(ts, seq(v.lpsNodeNumber, i => i));
  }

  /** `*` over drones reaches every registry key of an all-int registry, connected or not. */
  lemma StarDronesAllKeys(v: View, ns: seq<int>)
    requires "CRAZYFLIE" in v.modules && v.ids == KeysOf(ns)
    ensures var p := ServerDronePlan(v, Str("*"));
      p.Targets? && Called(p.ts) == ns && Aborted(p.ts).None?
  {
    CalledAllConvertible(ConvertVals(KeysOf(ns)), ns);
  }
}
