/**
  The validator decorators of the `osc_modules` tree and its `multi_drones`
  fan-out. A validator is a function of what it reads of the server; the
  handler it wraps runs exactly when the verdict is `Pass`.
 */
module OscValidators {
  import opened Wrappers
  import opened Text
  import opened Registry

  /** `osc_requires(m)`: the handler runs iff module `m` is registered. */
  function OscRequires(v: View, m: string): (r: Verdict)
    ensures r == Pass <==> m in v.modules
    ensures r != Pass ==> r == Reject(MissingModule(m))
  {
    if m in v.modules then Pass else Reject(MissingModule(m))
  }

  /** The registry key an integer drone id is stored under. */
  function Key(arg: PyVal): PyVal
    requires ToInt(arg).Some?
  {
    Int(ToInt(arg).value)
  }

  /**
    `drone_exists`: the CRAZYFLIE module first, then `int(drone_id)` (a
    malformed id raises `ValueError`), then membership of that int in the
    registry.
   */
  function DroneExists(v: View, arg: PyVal): (r: Verdict)
    ensures r == Pass <==> "CRAZYFLIE" in v.modules && ToInt(arg).Some? && Key(arg) in v.drones
    ensures r.Raise? <==> "CRAZYFLIE" in v.modules && ToInt(arg).None?
    ensures r.Raise? ==> r.exc == ValueError
    ensures r.Reject? && "CRAZYFLIE" in v.modules ==> r.report == DroneNotFound(ToInt(arg).value)
  {
    if "CRAZYFLIE" !in v.modules then OscRequires(v, "CRAZYFLIE")
    else match ToInt(arg)
      case None => Raise(ValueError)
      case Some(id) => if Int(id) in v.drones then Pass else Reject(DroneNotFound(id))
  }

  /**
    `lps_node_exists` as written in this tree: an index passes iff it is
    below `lps_node_number` (negative ones included), and the failure
    message adds an int to a string, which raises `TypeError` instead of
    reporting.
   */
  function LpsNodeExistsAsWritten(v: View, arg: PyVal): (r: Verdict)
    ensures r == Pass <==> "LPS" in v.modules && ToInt(arg).Some? && ToInt(arg).value < v.lpsNodeNumber
    ensures r.Reject? ==> r == Reject(MissingModule("LPS"))
    ensures "LPS" in v.modules && ToInt(arg).Some? && ToInt(arg).value >= v.lpsNodeNumber ==> r == Raise(TypeError)
  {
    if "LPS" !in v.modules then OscRequires(v, "LPS")
    else match ToInt(arg)
      case None => Raise(ValueError)
      case Some(id) => if id < v.lpsNodeNumber then Pass else Raise(TypeError)
  }

  /** An index at or past the node count never produces the "Bad node_id" report: it raises. */
  lemma LpsNodeOutOfRangeRaises(v: View, node: int)
    requires "LPS" in v.modules && node >= v.lpsNodeNumber
    ensures LpsNodeExistsAsWritten(v, Int(node)) == Raise(TypeError)
    ensures forall r :: LpsNodeExistsAsWritten(v, Int(node)) != Reject(r)
  {
  }

  /**
    `log_exists`: LOG, then `drone_exists`, then the record holds a `logs`
    map containing `str(log_name)`.
   */
  function LogExists(v: View, droneArg: PyVal, logArg: PyVal): (r: Verdict)
    ensures r == Pass <==>
      "LOG" in v.modules && DroneExists(v, droneArg) == Pass
      && v.drones[Key(droneArg)].logs.Some? && PyStr(logArg) in v.drones[Key(droneArg)].logs.value
    ensures "LOG" in v.modules && DroneExists(v, droneArg) != Pass ==> r == DroneExists(v, droneArg)
  {
    if "LOG" !in v.modules then OscRequires(v, "LOG")
    else if DroneExists(v, droneArg) != Pass then DroneExists(v, droneArg)
    else
      var id := ToInt(droneArg).value;
      var name := PyStr(logArg);
      var rec := v.drones[Int(id)];
      if rec.logs.Some? && name in rec.logs.value then Pass else Reject(LogNotFound(name, id))
  }

  /** `one_drone_is_connected`: CRAZYFLIE, then at least one connected record. */
  function OneDroneConnected(v: View): (r: Verdict)
    ensures r == Pass <==>
      "CRAZYFLIE" in v.modules && exists k :: k in v.ids && k in v.drones && v.drones[k].connected
    ensures r != Pass && "CRAZYFLIE" in v.modules ==> r == Reject(NoDroneConnected)
  {
    var connected := ConnectedIds(v.ids, v.drones);
    if "CRAZYFLIE" !in v.modules then OscRequires(v, "CRAZYFLIE")
    else if |connected| == 0 then Reject(NoDroneConnected)
    else
      assert connected[0] in connected;
      Pass
  }

  /** `drone_connected`: `drone_exists`, then the record's `connected` flag. */
  function DroneConnected(v: View, arg: PyVal): (r: Verdict)
    ensures r == Pass <==> DroneExists(v, arg) == Pass && v.drones[Key(arg)].connected
    ensures DroneExists(v, arg) != Pass ==> r == DroneExists(v, arg)
    ensures DroneExists(v, arg) == Pass && !v.drones[Key(arg)].connected ==> r == Reject(NotConnected(ToInt(arg).value))
  {
    if DroneExists(v, arg) != Pass then DroneExists(v, arg)
    else if v.drones[Key(arg)].connected then Pass
    else Reject(NotConnected(ToInt(arg).value))
  }

  /**
    `param_exists` as written in this tree: after PARAM and
    `drone_connected`, the lookup reads `self.drones` on the module, which
    has no such attribute, so the check raises `AttributeError`.
   */
  function ParamExistsAsWritten(v: View, droneArg: PyVal, group: PyVal, name: PyVal): (r: Verdict)
    ensures r != Pass
    ensures "PARAM" in v.modules && DroneConnected(v, droneArg) == Pass ==> r == Raise(AttributeError)
    ensures "PARAM" in v.modules && DroneConnected(v, droneArg) != Pass ==> r == DroneConnected(v, droneArg)
  {
    if "PARAM" !in v.modules then OscRequires(v, "PARAM")
    else if DroneConnected(v, droneArg) != Pass then DroneConnected(v, droneArg)
    else Raise(AttributeError)
  }

  // ---------------------------------------------------------------------
  // Fan-out over a drone selector

  /** One element of the target list after `int(...)`: an id, or the exception the conversion raises. */
  datatype Target = Target(id: int) | Unconvertible(exc: Exc)

  /**
    What a fan-out decorator does with its selector: refuse (a missing
    module), raise before the loop, or walk a list of targets.
   */
  datatype Plan = Refused(report: Report) | Fails(exc: Exc) | Targets(ts: seq<Target>)

  function Convert(p: PyVal): (t: Target)
    ensures t.Target? <==> ToInt(p).Some?
    ensures t.Target? ==> t.id == ToInt(p).value
    ensures t.Unconvertible? ==> t.exc == ValueError
  {
    match ToInt(p)
    case None => Unconvertible(ValueError)
    case Some(i) => Target(i)
  }

  function ConvertTokens(parts: seq<string>): (ts: seq<Target>)
    ensures |ts| == |parts|
    ensures forall i :: 0 <= i < |parts| ==> ts[i] == Convert(Str(parts[i]))
  {
    if parts == [] then [] else [Convert(Str(parts[0]))] + ConvertTokens(parts[1..])
  }

  function ConvertVals(ks: seq<PyVal>): (ts: seq<Target>)
    ensures |ts| == |ks|
    ensures forall i :: 0 <= i < |ks| ==> ts[i] == Convert(ks[i])
  {
    if ks == [] then [] else [Convert(ks[0])] + ConvertVals(ks[1..])
  }

  /** A selector other than `*`: one target, or one per `;`-separated token. */
  function TokenTargets(s: string): (ts: seq<Target>)
    ensures ts == ConvertTokens(Split(s, ';'))
    ensures ';' !in s ==> ts == [Convert(Str(s))]
  {
    if ';' !in s then
      assert Split(s, ';') == [s];
      [Convert(Str(s))]
    else ConvertTokens(Split(s, ';'))
  }

  /**
    The targets of `multi_drones` as written in this tree. `*` yields the
    connected records themselves, and `int()` of a record raises
    `TypeError`; a selector that is not a string (an int passed by a
    caller) makes the `';' not in drones` test raise `TypeError`.
   */
  function OscDronePlan(v: View, sel: PyVal): (p: Plan)
    ensures "CRAZYFLIE" !in v.modules <==> p.Refused?
    ensures "CRAZYFLIE" in v.modules && sel == Str("*") ==>
      p == Targets(seq(|ConnectedIds(v.ids, v.drones)|, _ => Unconvertible(TypeError)))
    ensures "CRAZYFLIE" in v.modules && !sel.Str? ==> p == Fails(TypeError)
    ensures "CRAZYFLIE" in v.modules && sel.Str? && sel != Str("*") ==>
      p == Targets(ConvertTokens(Split(sel.s, ';')))
  {
    if "CRAZYFLIE" !in v.modules then Refused(MissingModule("CRAZYFLIE"))
    else if sel == Str("*") then Targets(seq(|ConnectedIds(v.ids, v.drones)|, _ => Unconvertible(TypeError)))
    else if !sel.Str? then Fails(TypeError)
    else Targets(TokenTargets(sel.s))
  }

  /**
    `multi_drones` with the selector read through `str()` and `*` expanded
    to the ids of the connected records, which is what the loop body's
    `int(drone_id)` needs.
   */
  function OscDronePlanFixed(v: View, sel: PyVal): (p: Plan)
    ensures "CRAZYFLIE" !in v.modules <==> p.Refused?
    ensures "CRAZYFLIE" in v.modules && PyStr(sel) == "*" ==>
      p == Targets(ConvertVals(ConnectedIds(v.ids, v.drones)))
    ensures "CRAZYFLIE" in v.modules && PyStr(sel) != "*" ==>
      p == Targets(ConvertTokens(Split(PyStr(sel), ';')))
  {
    var s := PyStr(sel);
    if "CRAZYFLIE" !in v.modules then Refused(MissingModule("CRAZYFLIE"))
    else if s == "*" then Targets(ConvertVals(ConnectedIds(v.ids, v.drones)))
    else Targets(TokenTargets(s))
  }

  /**
    The ids the handler is called with when `int()` sits outside the
    per-target `try`: the longest prefix of convertible targets.
   */
  function Called(ts: seq<Target>): (ids: seq<int>)
    ensures |ids| <= |ts|
    ensures forall i :: 0 <= i < |ids| ==> ts[i] == Target(ids[i])
    ensures |ids| < |ts| ==> ts[|ids|].Unconvertible?
  {
    if ts == [] || ts[0].Unconvertible? then [] else [ts[0].id] + Called(ts[1..])
  }

  /** The exception that escapes the loop, if a target does not convert. */
  function Aborted(ts: seq<Target>): (e: Option<Exc>)
    ensures e.None? <==> |Called(ts)| == |ts|
    ensures e.Some? ==> e.value == ts[|Called(ts)|].exc
  {
    if ts == [] then None
    else if ts[0].Unconvertible? then Some(ts[0].exc)
    else Aborted(ts[1..])
  }

  /** With no connected drone, `*` calls nothing and raises nothing. */
  lemma StarWithNoneConnected(v: View)
    requires "CRAZYFLIE" in v.modules && ConnectedIds(v.ids, v.drones) == []
    ensures OscDronePlan(v, Str("*")) == Targets([])
  {
  }

  /** With a connected drone, `*` as written calls nothing and escapes with `TypeError`. */
  lemma StarAbortsAsWritten(v: View)
    requires "CRAZYFLIE" in v.modules && ConnectedIds(v.ids, v.drones) != []
    ensures var p := OscDronePlan(v, Str("*"));
      p.Targets? && Called(p.ts) == [] && Aborted(p.ts) == Some(TypeError)
  {
    var ts := OscDronePlan(v, Str("*")).ts;
    assert ts[0] == Unconvertible(TypeError);
  }

  /** An int selector, as the connection callback passes, raises before any call. */
  lemma IntSelectorFailsAsWritten(v: View, n: int)
    requires "CRAZYFLIE" in v.modules
    ensures OscDronePlan(v, Int(n)) == Fails(TypeError)
  {
  }

  function IntStrs(ns: seq<int>): (ss: seq<string>)
    ensures |ss| == |ns| && forall i :: 0 <= i < |ns| ==> ss[i] == IntToStr(ns[i])
  {
    if ns == [] then [] else [IntToStr(ns[0])] + IntStrs(ns[1..])
  }

  function KeysOf(ns: seq<int>): (ks: seq<PyVal>)
    ensures |ks| == |ns| && forall i :: 0 <= i < |ns| ==> ks[i] == Int(ns[i])
  {
    if ns == [] then [] else [Int(ns[0])] + KeysOf(ns[1..])
  }

  lemma {:induction false} CalledAllConvertible(ts: seq<Target>, ns: seq<int>)
    requires |ts| == |ns| && forall i :: 0 <= i < |ns| ==> ts[i] == Target(ns[i])
    ensures Called(ts) == ns && Aborted(ts).None?
  {
    if ts != [] {
      CalledAllConvertible(ts[1..], ns[1..]);
    }
  }

  /**
    A `;`-list of ids is processed in the order written, once per id, by
    either version of the plan.
   */
  lemma SelectorListInOrder(v: View, ns: seq<int>)
    requires "CRAZYFLIE" in v.modules && |ns| >= 1
    ensures var sel := Str(Join(IntStrs(ns), ";"));
      var p := OscDronePlan(v, sel);
      p == OscDronePlanFixed(v, sel) && p.Targets? && Called(p.ts) == ns && Aborted(p.ts).None?
  {
    var ss := IntStrs(ns);
    forall i | 0 <= i < |ss| ensures ';' !in ss[i] {
      IntToStrPlain(ns[i]);
    }
    SplitJoin(ss, ';');
    var s := Join(ss, ";");
    assert s != "*" by {
      if |ss| == 1 {
        assert s == ss[0] == IntToStr(ns[0]);
        var d := NatToStr(if ns[0] < 0 then -ns[0] else ns[0]);
        assert IsDigit(d[|d| - 1]);
      } else {
        assert s == ss[0] + ";" + Join(ss[1..], ";");
        assert |s| >= 2;
      }
    }
    var ts := ConvertTokens(Split(s, ';'));
    forall i | 0 <= i < |ns| ensures ts[i] == Target(ns[i]) {
      assert ParseInt(PyStr(Int(ns[i]))) == Some(ns[i]);
    }
    CalledAllConvertible(ts, ns);
  }

  /** The selector `str(n)` is not `*` and names the one target `n`. */
  lemma SingleSelector(n: int)
    ensures IntToStr(n) != "*" && TokenTargets(IntToStr(n)) == [Target(n)]
  {
    var v := View({"CRAZYFLIE"}, [], map[], 0, []);
    SelectorListInOrder(v, [n]);
    assert Join(IntStrs([n]), ";") == IntToStr(n);
  }

  /** With the fix, an int selector, as the connection callback passes, calls the handler once, for that id. */
  lemma IntSelectorFixed(v: View, n: int)
    requires "CRAZYFLIE" in v.modules
    ensures OscDronePlanFixed(v, Int(n)) == Targets([Target(n)])
    ensures Called([Target(n)]) == [n] && Aborted([Target(n)]).None?
  {
    SingleSelector(n);
    SingleTargetRuns(n);
  }

  lemma SingleTargetRuns(n: int)
    ensures Called([Target(n)]) == [n] && Aborted([Target(n)]).None?
  {
    assert [Target(n)][1..] == [];
  }

  /** With the fix, `*` calls the handler once per connected drone, in registry order. */
  lemma StarCallsConnectedFixed(v: View, ns: seq<int>)
    requires "CRAZYFLIE" in v.modules
    requires ConnectedIds(v.ids, v.drones) == KeysOf(ns)
    ensures var p := OscDronePlanFixed(v, Str("*"));
      p.Targets? && Called(p.ts) == ns && Aborted(p.ts).None?
  {
    CalledAllConvertible(ConvertVals(KeysOf(ns)), ns);
  }
}
