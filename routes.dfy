/**
  The sub-topics each module's `routes()` registers, in registration
  order, and the module table `build_routes` creates.
 */
module RouteTables {
  import opened Wrappers
  import opened Text
  import opened OscRouting

  /** `CrazyflieModule.routes`. */
  function CrazyflieSubs(): seq<string> {
    ["/{drone_id}/add", "/{drone_id}/remove", "/{drone_id}/goal", "/{drones}/lps/{nodes}/update_pos"]
  }

  /** The older `Crazyflie.py` routes: remove is registered under `remode`. */
  function LegacyCrazyflieSubs(): seq<string> {
    ["/{drone_id}/add", "/{drone_id}/remode", "/{drone_id}/goal"]
  }

  function ParamSubs(): seq<string> {
    ["/{drones}/{param_group}/{param_name}/set", "/{drones}/send_toc",
     "/{drones}/send_toc/{toc_variable}", "/{drones}/get_all_values"]
  }

  /** `LogModule.routes` of the `osc_modules` tree. */
  function OscLogSubs(): seq<string> {
    ["/{drones}/add", "/{drones}/{log_name}/add_variable", "/{drones}/{log_name}/start", "/{drones}/send_toc"]
  }

  /** `LogModule.routes` of the `server_osc_modules` tree. */
  function ServerLogSubs(): seq<string> {
    OscLogSubs() + ["/{drones}/send_toc/{toc_variable}"]
  }

  function LpsSubs(): seq<string> {
    ["/set_node_number", "/{node_id}/set_position", "/{node_id}/reboot"]
  }

  /** The older `Lps.py` routes: no reboot. */
  function LegacyLpsSubs(): seq<string> {
    ["/set_node_number", "/{node_id}/set_position"]
  }

  /** The routes of both client modules. */
  function ClientSubs(): seq<string> {
    ["/add", "/remove"]
  }

  /** `ServerModule.routes` and `MetaServerModule.routes`. */
  function RestartSubs(): seq<string> {
    ["/restart"]
  }

  /** One entry of the module table: the name `get_module` looks up, the base topic, the sub-topics. */
  datatype ModuleSpec = ModuleSpec(name: string, base: string, subs: seq<string>)

  /** The dict literal of `server.py`'s `build_routes`, in its order. */
  function FleetTable(): seq<ModuleSpec> {
    [ModuleSpec("SERVER", "/server", RestartSubs()),
     ModuleSpec("CLIENT", "/client", ClientSubs()),
     ModuleSpec("CRAZYFLIE", "/crazyflie", CrazyflieSubs()),
     ModuleSpec("LPS", "/lps", LpsSubs()),
     ModuleSpec("LOG", "/log", OscLogSubs()),
     ModuleSpec("PARAM", "/param", ParamSubs())]
  }

  /** The module names of `inner_server.py`'s `build_routes`, in its order. */
  function InnerNames(): seq<string> {
    ["CLIENT", "CRAZYFLIE", "LPS", "LOG", "PARAM"]
  }

  function SpecNames(t: seq<ModuleSpec>): (ns: seq<string>)
    ensures |ns| == |t| && forall i :: 0 <= i < |t| ==> ns[i] == t[i].name
  {
    if t == [] then [] else [t[0].name] + SpecNames(t[1..])
  }

  /**
    The table of `server.py` names six distinct modules, each base topic is
    a non-empty string without a trailing slash, and every sub-topic is
    non-empty, so attaching a module registers all of its routes.
   */
  lemma FleetTableWellFormed()
    ensures |FleetTable()| == 6
    ensures forall i, j :: 0 <= i < j < 6 ==> FleetTable()[i].name != FleetTable()[j].name
    ensures forall i :: 0 <= i < 6 ==>
      NormaliseBase(FleetTable()[i].base) == Some(FleetTable()[i].base)
      && Leading(FleetTable()[i].subs) == |FleetTable()[i].subs|
  {
    var t := FleetTable();
    forall i | 0 <= i < 6
      ensures Leading(t[i].subs) == |t[i].subs|
    {
      var subs := t[i].subs;
      LeadingAll(subs);
    }
  }

  lemma {:induction false} LeadingAll(subs: seq<string>)
    requires forall i :: 0 <= i < |subs| ==> subs[i] != []
    ensures Leading(subs) == |subs|
  {
    if subs != [] {
      LeadingAll(subs[1..]);
    }
  }

  /** `drone_id` is a group name `re` accepts. */
  lemma DroneIdName()
    ensures IsIdentifier("drone_id") && '}' !in "drone_id" && '\n' !in "drone_id"
  {
  }

  lemma IdentityLiteral(p: string)
    requires p == "/crazyflie/" || p == "/goal" || p == "/remode"
    ensures forall j :: 0 <= j < |p| ==> !IsMeta(p[j])
  {
  }

  // `/crazyflie/{drone_id}/goal` listens on `/crazyflie/*/goal`, and the
  // address `/crazyflie/<n>/goal` hands `osc_goal` the keyword argument
  // `drone_id = str(n)`, which `int()` turns back into `n`.
  lemma GoalRouteCarriesId(n: int, t: string)
    requires TopicReg("/crazyflie", CrazyflieSubs()[2]) == Some(t)
    ensures RegexToTopic(t) == "/crazyflie/*/goal"
    ensures PlainLiterals(Parse(t))
    ensures Regexed(t, "/crazyflie/" + IntToStr(n) + "/goal") == Kwargs(map["drone_id" := IntToStr(n)])
    ensures ParseInt(IntToStr(n)) == Some(n)
  {
    IntToStrPlain(n);
    GoalRouteBinds(t, IntToStr(n));
    ParseIntToStr(n);
  }

  /** Any newline-free path segment is bound to `drone_id` by the goal route. */
  lemma GoalRouteBinds(t: string, s: string)
    requires TopicReg("/crazyflie", CrazyflieSubs()[2]) == Some(t)
    requires '\n' !in s
    ensures RegexToTopic(t) == "/crazyflie/*/goal"
    ensures PlainLiterals(Parse(t))
    ensures Regexed(t, "/crazyflie/" + s + "/goal") == Kwargs(map["drone_id" := s])
  {
    assert t == "/crazyflie" + "/{drone_id}/goal";
    GoalLiterals();
    IdentityLiteral("/crazyflie/");
    IdentityLiteral("/goal");
    DroneIdName();
    OneHoleRoute("/crazyflie/", "drone_id", s, "/goal");
  }

  // In the older module the remove handler listens on `/crazyflie/*/remode`, and on no `remove` topic.
  lemma LegacyRemoveRoute(t: string)
    requires TopicReg("/crazyflie", LegacyCrazyflieSubs()[1]) == Some(t)
    ensures "/{drone_id}/remove" !in LegacyCrazyflieSubs()
    ensures RegexToTopic(t) == "/crazyflie/*/remode"
  {
    assert t == "/crazyflie" + "/{drone_id}/remode";
    RemodeLiterals();
    IdentityLiteral("/crazyflie/");
    IdentityLiteral("/remode");
    DroneIdName();
    OneHoleTopic("/crazyflie/", "drone_id", "/remode");
  }

  lemma GoalLiterals()
    ensures "/crazyflie" + "/{drone_id}/goal" == "/crazyflie/" + "{" + "drone_id" + "}" + "/goal"
    ensures "/crazyflie/" + "*" + "/goal" == "/crazyflie/*/goal"
  {
  }

  lemma RemodeLiterals()
    ensures "/crazyflie" + "/{drone_id}/remode" == "/crazyflie/" + "{" + "drone_id" + "}" + "/remode"
    ensures "/crazyflie/" + "*" + "/remode" == "/crazyflie/*/remode"
    ensures "/{drone_id}/remove" !in LegacyCrazyflieSubs()
  {
  }
}
