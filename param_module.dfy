/**
  `ParamModule` of the `osc_modules` tree: setting a parameter, publishing
  the parameter table of contents, requesting every value, and the
  parameter-update callbacks. Each handler is given for one target of its
  drone selector (the fan-out is in `FanOut`), first as a function from one
  fleet state to the next and then as a method on the server that makes
  the same changes in place.
 */
module ParamHandlers {
  import opened Wrappers
  import opened Text
  import opened Registry
  import opened OscValidators
  import opened ServerValidators
  import opened TocOrder
  import opened Fleet
  import opened FleetServer

  /** `param_group + '.' + param_name`, the full name `set_value` receives. */
  function ParamName(group: PyVal, name: PyVal): string {
    PyStr(group) + "." + PyStr(name)
  }

  /** The drone's parameter table has the group, and the name within that group. */
  predicate InParamToc(f: Fleet, id: int, group: PyVal, name: PyVal)
    requires Int(id) in f.drones
  {
    var toc := f.drones[Int(id)].paramToc;
    PyStr(group) in Groups(toc) && PyStr(name) in TocNames(toc, PyStr(group))
  }

  /** What lets `osc_set_param` through for one drone: PARAM, the drone connected, the parameter in its table. */
  predicate Settable(f: Fleet, id: int, group: PyVal, name: PyVal) {
    "PARAM" in f.modules && ConnectedId(f, id) && InParamToc(f, id, group, name)
  }

  /**
    `'/' + str(drone_id) + '/toc'`, the topic a whole table of contents is
    published under: split on `/`, it reads as an empty head, the id's
    digits and `toc`.
   */
  function TableTopic(id: int): (t: string)
    ensures Split(t, '/') == ["", IntToStr(id), "toc"]
  {
    var parts := ["", IntToStr(id), "toc"];
    IntToStrPlain(id);
    assert parts[1..][1..] == ["toc"] && Join(parts[1..][1..], "/") == "toc";
    assert Join(parts[1..], "/") == IntToStr(id) + "/" + "toc";
    assert Join(parts, "/") == "/" + IntToStr(id) + "/toc";
    SplitJoin(parts, '/');
    "/" + IntToStr(id) + "/toc"
  }

  /**
    `'/' + str(drone_id) + '/toc/' + toc_variable`, the topic of one group:
    a group name without `/` comes back as the fourth piece.
   */
  function TocTopic(id: int, group: string): (t: string)
    ensures '/' !in group ==> Split(t, '/') == ["", IntToStr(id), "toc", group]
  {
    var parts := ["", IntToStr(id), "toc", group];
    if '/' in group then TableTopic(id) + "/" + group
    else
      IntToStrPlain(id);
      assert parts[1..][1..][1..] == [group] && Join(parts[1..][1..][1..], "/") == group;
      assert Join(parts[1..][1..], "/") == "toc" + "/" + group;
      assert Join(parts[1..], "/") == IntToStr(id) + "/" + "toc" + "/" + group;
      assert Join(parts, "/") == TableTopic(id) + "/" + group;
      SplitJoin(parts, '/');
      TableTopic(id) + "/" + group
  }

  /**
    `osc_set_param` for one target: `param_exists`, then `drone_connected`,
    then one `set_value(group.name, str(value))` on the drone's handle.
    The parameter is looked up in the drone's parameter table (see the
    findings for the lookup as written). A refusal is one report.
   */
  function SetParamAt(f: Fleet, id: int, group: PyVal, name: PyVal, value: PyVal): (r: Ran)
    ensures r.raised.None?
    ensures Settable(f, id, group, name) ==>
      r.f == f.(events := f.events + [SetParamValue(f.drones[Int(id)].cf, ParamName(group, name), PyStr(value))])
    ensures !Settable(f, id, group, name) ==> OneReport(f, r.f)
  {
    var v := ViewOf(f);
    var verdict := Then(ParamExists(v, Int(id), group, name), DroneConnected(v, Int(id)));
    if verdict != Pass then Refuse(f, verdict)
    else Ran(f.(events := f.events + [SetParamValue(f.drones[Int(id)].cf, ParamName(group, name), PyStr(value))]), None)
  }

  /**
    `osc_send_toc_variable` for one target: after `drone_connected`, the
    sorted names of the group are published under `/<id>/toc/<group>` when
    the group exists, and nothing happens when it does not.
   */
  function SendTocVariableAt(f: Fleet, id: int, variable: PyVal): (r: Ran)
    ensures r.raised.None?
    ensures !ConnectedId(f, id) ==> OneReport(f, r.f)
    ensures ConnectedId(f, id) && PyStr(variable) !in Groups(f.drones[Int(id)].paramToc) ==> r.f == f
  {
    var verdict := DroneConnected(ViewOf(f), Int(id));
    if verdict != Pass then Refuse(f, verdict)
    else
      var toc := SortedToc(f.drones[Int(id)].paramToc);
      var group := PyStr(variable);
      if group in Groups(toc) then
        Ran(f.(events := f.events + [Send(TocTopic(id, group), Names(TocNames(toc, group)))]), None)
      else Ran(f, None)
  }

  /** For an existing group, what is published is the sorted list of that group's names. */
  lemma SendTocVariablePublishes(f: Fleet, id: int, variable: PyVal)
    requires ConnectedId(f, id) && PyStr(variable) in Groups(f.drones[Int(id)].paramToc)
    ensures SendTocVariableAt(f, id, variable).f
      == f.(events := f.events + [Send(TocTopic(id, PyStr(variable)),
                                       Names(Sort(TocNames(f.drones[Int(id)].paramToc, PyStr(variable)))))])
  {
    SortedTocLookup(f.drones[Int(id)].paramToc, PyStr(variable));
  }

  /** `osc_send_toc` for one target: after `drone_connected`, the whole sorted table is published under `/<id>/toc`. */
  function SendTocAt(f: Fleet, id: int): (r: Ran)
    ensures r.raised.None?
    ensures !ConnectedId(f, id) ==> OneReport(f, r.f)
    ensures ConnectedId(f, id) ==>
      r.f == f.(events := f.events + [Send(TableTopic(id), Json(SortedToc(f.drones[Int(id)].paramToc)))])
  {
    var verdict := DroneConnected(ViewOf(f), Int(id));
    if verdict != Pass then Refuse(f, verdict)
    else Ran(f.(events := f.events + [Send(TableTopic(id), Json(SortedToc(f.drones[Int(id)].paramToc)))]), None)
  }

  /** `osc_get_all_values` for one target: after `drone_connected`, one request to refresh every parameter. */
  function GetAllValuesAt(f: Fleet, id: int): (r: Ran)
    ensures r.raised.None?
    ensures !ConnectedId(f, id) ==> OneReport(f, r.f)
    ensures ConnectedId(f, id) ==> r.f == f.(events := f.events + [RequestAllParams(f.drones[Int(id)].cf)])
  {
    var verdict := DroneConnected(ViewOf(f), Int(id));
    if verdict != Pass then Refuse(f, verdict)
    else Ran(f.(events := f.events + [RequestAllParams(f.drones[Int(id)].cf)]), None)
  }

  /** One update callback per group, each bound to the drone's id as a string. */
  function ParamCallbacks(cf: Handle, groups: seq<string>, drone: string): (es: seq<Event>)
    ensures |es| == |groups|
    ensures forall i :: 0 <= i < |groups| ==> es[i] == ParamUpdateCallback(cf, groups[i], drone)
  {
    seq(|groups|, i requires 0 <= i < |groups| => ParamUpdateCallback(cf, groups[i], drone))
  }

  /**
    `add_param_cb`: for a connected record, one callback per group of its
    parameter table, in the table's order; for an absent or unconnected
    record, nothing.
   */
  function AddParamCb(f: Fleet, key: PyVal): (g: Fleet)
    ensures g.(events := f.events) == f
    ensures !(key in f.drones && f.drones[key].connected) ==> g == f
    ensures key in f.drones && f.drones[key].connected ==>
      |g.events| == |f.events| + |f.drones[key].paramToc|
      && g.events[..|f.events|] == f.events
      && forall i :: 0 <= i < |f.drones[key].paramToc| ==>
           g.events[|f.events| + i] == ParamUpdateCallback(f.drones[key].cf, f.drones[key].paramToc[i].group, PyStr(key))
  {
    if key in f.drones && f.drones[key].connected then
      var rec := f.drones[key];
      f.(events := f.events + ParamCallbacks(rec.cf, Groups(rec.paramToc), PyStr(key)))
    else f
  }

  /**
    The callback `_on_param_update` returns, run on `(param, value)`: the
    full name is split on `.` into exactly a group and a name (otherwise
    the unpacking raises `ValueError`), and the value is published under
    `<drone>/<group>/<name>`.
   */
  function OnParamUpdate(f: Fleet, drone: string, param: string, value: PyVal): (r: Ran)
    ensures r.raised.Some? <==> |Split(param, '.')| != 2
    ensures r.raised.Some? ==> r == Ran(f, Some(ValueError))
    ensures r.raised.None? ==> exists topic :: r.f == f.(events := f.events + [Send(topic, Value(value))])
  {
    var parts := Split(param, '.');
    if |parts| != 2 then Ran(f, Some(ValueError))
    else Ran(f.(events := f.events + [Send(Join([drone, parts[0], parts[1]], "/"), Value(value))]), None)
  }

  /** A name with exactly one dot, as `set_value` builds it, is published under `<drone>/<group>/<name>`. */
  lemma ParamUpdateTopic(f: Fleet, drone: string, group: string, name: string, value: PyVal)
    requires '.' !in group && '.' !in name
    ensures OnParamUpdate(f, drone, group + "." + name, value)
      == Ran(f.(events := f.events + [Send(drone + "/" + group + "/" + name, Value(value))]), None)
  {
    SplitJoin([group, name], '.');
    assert Join([group, name], ".") == group + "." + name;
    assert [drone, group, name][1..] == [group, name];
    assert Join([group, name], "/") == group + "/" + name;
    calc {
      Join([drone, group, name], "/");
      drone + "/" + (group + "/" + name);
      drone + "/" + group + "/" + name;
    }
  }

  /** A name with a second dot makes the callback raise and publish nothing. */
  lemma ParamUpdateExtraDot(f: Fleet, drone: string, group: string, name: string, value: PyVal)
    requires '.' !in group && '.' in name
    ensures OnParamUpdate(f, drone, group + "." + name, value) == Ran(f, Some(ValueError))
  {
    var s := group + "." + name;
    assert s[|group|] == '.' && s[..|group|] == group;
    var k := IndexOf(s, '.');
    assert k == |group|;
    assert s[k + 1..] == name;
    assert |Split(name, '.')| >= 2;
  }

  /** The names `set_value` builds round-trip through the update callback when neither part holds a dot. */
  lemma SetThenUpdateTopic(f: Fleet, drone: string, group: PyVal, name: PyVal, value: PyVal)
    requires '.' !in PyStr(group) && '.' !in PyStr(name)
    ensures OnParamUpdate(f, drone, ParamName(group, name), value)
      == Ran(f.(events := f.events + [Send(drone + "/" + PyStr(group) + "/" + PyStr(name), Value(value))]), None)
  {
    ParamUpdateTopic(f, drone, PyStr(group), PyStr(name), value);
  }

  // ---------------------------------------------------------------------
  // The publishing handlers as written: `OscModule` of this tree defines
  // no `_send`, so every publication raises `AttributeError` instead.

  /**
    `osc_send_toc_variable` as written: for a group of the drone's
    parameter table, `self._send` is looked up and raises
    `AttributeError`; any other name sends nothing.
   */
  function SendTocVariableAsWritten(f: Fleet, id: int, variable: PyVal): (r: Ran)
    ensures r.f.events == f.events
    ensures r.raised.Some? ==> r == Ran(f, Some(AttributeError))
    ensures r.raised.Some? <==> ConnectedId(f, id) && PyStr(variable) in Groups(f.drones[Int(id)].paramToc)
  {
    var verdict := DroneConnected(ViewOf(f), Int(id));
    if verdict != Pass then Refuse(f, verdict)
    else if PyStr(variable) in Groups(SortedToc(f.drones[Int(id)].paramToc)) then Ran(f, Some(AttributeError))
    else Ran(f, None)
  }

  /** `osc_send_toc` as written: a connected drone reaches `self._send`, which raises `AttributeError`. */
  function SendTocAsWritten(f: Fleet, id: int): (r: Ran)
    ensures r.f.events == f.events
    ensures r.raised.Some? <==> ConnectedId(f, id)
    ensures ConnectedId(f, id) ==> r == Ran(f, Some(AttributeError))
  {
    var verdict := DroneConnected(ViewOf(f), Int(id));
    if verdict != Pass then Refuse(f, verdict)
    else Ran(f, Some(AttributeError))
  }

  /**
    The update callback as written: the unpacking `ValueError` comes
    first, and a name that splits into two parts reaches `self._send`,
    which raises `AttributeError`. Either way nothing is published.
   */
  function OnParamUpdateAsWritten(f: Fleet, drone: string, param: string, value: PyVal): (r: Ran)
    ensures r.f == f && r.raised.Some?
    ensures r.raised.value == AttributeError <==> |Split(param, '.')| == 2
  {
    if |Split(param, '.')| != 2 then Ran(f, Some(ValueError))
    else Ran(f, Some(AttributeError))
  }

  /**
    For a group of the parameter table, the handler as written publishes
    nothing and raises, where the intended one publishes the group's
    sorted names.
   */
  lemma SendTocVariableParamAsWritten(f: Fleet, id: int, variable: PyVal)
    requires ConnectedId(f, id) && PyStr(variable) in Groups(f.drones[Int(id)].paramToc)
    ensures SendTocVariableAsWritten(f, id, variable) == Ran(f, Some(AttributeError))
    ensures SendTocVariableAt(f, id, variable).raised.None?
    ensures SendTocVariableAt(f, id, variable).f.events != f.events
  {
    SendTocVariablePublishes(f, id, variable);
  }

  /**
    For a connected drone, the table handler as written raises where the
    intended one publishes; both refuse a drone that is not connected in
    the same way.
   */
  lemma SendTocAsWrittenRaises(f: Fleet, id: int)
    ensures ConnectedId(f, id) ==>
      SendTocAsWritten(f, id) == Ran(f, Some(AttributeError))
      && SendTocAt(f, id).raised.None? && |SendTocAt(f, id).f.events| == |f.events| + 1
    ensures !ConnectedId(f, id) ==> SendTocAsWritten(f, id) == SendTocAt(f, id)
  {
  }

  /**
    For a name `set_value` builds from dot-free parts, the callback as
    written raises `AttributeError` and publishes nothing, where the
    intended one publishes the value under `<drone>/<group>/<name>`.
   */
  lemma ParamUpdateAsWrittenRaises(f: Fleet, drone: string, group: PyVal, name: PyVal, value: PyVal)
    requires '.' !in PyStr(group) && '.' !in PyStr(name)
    ensures OnParamUpdateAsWritten(f, drone, ParamName(group, name), value) == Ran(f, Some(AttributeError))
    ensures OnParamUpdate(f, drone, ParamName(group, name), value)
      == Ran(f.(events := f.events + [Send(drone + "/" + PyStr(group) + "/" + PyStr(name), Value(value))]), None)
  {
    SetThenUpdateTopic(f, drone, group, name, value);
  }

  // ---------------------------------------------------------------------
  // The same handlers as methods on the server

  lemma SetParamPasses(f: Fleet, id: int, group: PyVal, name: PyVal, value: PyVal)
    requires Then(ParamExists(ViewOf(f), Int(id), group, name), DroneConnected(ViewOf(f), Int(id))) == Pass
    ensures Int(id) in f.drones
    ensures SetParamAt(f, id, group, name, value)
      == Ran(f.(events := f.events + [SetParamValue(f.drones[Int(id)].cf, ParamName(group, name), PyStr(value))]), None)
  {
  }

  method SetParamOn(srv: Server, id: int, group: PyVal, name: PyVal, value: PyVal) returns (raised: Option<Exc>)
    modifies srv
    ensures Ran(srv.Snap(), raised) == SetParamAt(old(srv.Snap()), id, group, name, value)
    ensures srv.Routing() == old(srv.Routing())
  {
    ghost var f0 := srv.Snap();
    var v := srv.View();
    var verdict := Then(ParamExists(v, Int(id), group, name), DroneConnected(v, Int(id)));
    if verdict != Pass {
      raised := srv.Decline(verdict);
      return;
    }
    SetParamPasses(f0, id, group, name, value);
    srv.events := srv.events + [SetParamValue(srv.drones[Int(id)].cf, ParamName(group, name), PyStr(value))];
    raised := None;
  }

  method SendTocVariableOn(srv: Server, id: int, variable: PyVal) returns (raised: Option<Exc>)
    modifies srv
    ensures Ran(srv.Snap(), raised) == SendTocVariableAt(old(srv.Snap()), id, variable)
    ensures srv.Routing() == old(srv.Routing())
  {
    var verdict := DroneConnected(srv.View(), Int(id));
    if verdict != Pass {
      raised := srv.Decline(verdict);
      return;
    }
    var toc := SortedToc(srv.drones[Int(id)].paramToc);
    var group := PyStr(variable);
    if group in Groups(toc) {
      var names := TocNames(toc, group);
      srv.events := srv.events + [Send(TocTopic(id, group), Names(names))];
    }
    raised := None;
  }

  method SendTocOn(srv: Server, id: int) returns (raised: Option<Exc>)
    modifies srv
    ensures Ran(srv.Snap(), raised) == SendTocAt(old(srv.Snap()), id)
    ensures srv.Routing() == old(srv.Routing())
  {
    var verdict := DroneConnected(srv.View(), Int(id));
    if verdict != Pass {
      raised := srv.Decline(verdict);
      return;
    }
    var toc := SortedToc(srv.drones[Int(id)].paramToc);
    srv.events := srv.events + [Send(TableTopic(id), Json(toc))];
    raised := None;
  }

  method GetAllValuesOn(srv: Server, id: int) returns (raised: Option<Exc>)
    modifies srv
    ensures Ran(srv.Snap(), raised) == GetAllValuesAt(old(srv.Snap()), id)
    ensures srv.Routing() == old(srv.Routing())
  {
    var verdict := DroneConnected(srv.View(), Int(id));
    if verdict != Pass {
      raised := srv.Decline(verdict);
      return;
    }
    srv.events := srv.events + [RequestAllParams(srv.drones[Int(id)].cf)];
    raised := None;
  }

  /** One more group's callback, appended to what the loop has recorded. */
  lemma ParamCallbacksStep(cf: Handle, groups: seq<string>, i: nat, drone: string, es: seq<Event>)
    requires i < |groups|
    ensures es + ParamCallbacks(cf, groups[..i + 1], drone)
      == es + ParamCallbacks(cf, groups[..i], drone) + [ParamUpdateCallback(cf, groups[i], drone)]
  {
    assert ParamCallbacks(cf, groups[..i + 1], drone)
      == ParamCallbacks(cf, groups[..i], drone) + [ParamUpdateCallback(cf, groups[i], drone)];
  }

  /** `add_param_cb`: registers the callback for every group of a connected drone's parameter table. */
  method AddParamCbOn(srv: Server, key: PyVal)
    modifies srv
    ensures srv.Snap() == AddParamCb(old(srv.Snap()), key)
    ensures srv.Routing() == old(srv.Routing())
  {
    if key in srv.drones && srv.drones[key].connected {
      var rec := srv.drones[key];
      ghost var f0 := srv.Snap();
      AddGroupCallbacks(srv, rec.cf, Groups(rec.paramToc), PyStr(key));
      AddParamCbConnected(f0, key);
    }
  }

  /** `add_param_cb`: the loop over the groups, one `add_update_callback` each, in order. */
  method AddGroupCallbacks(srv: Server, cf: Handle, groups: seq<string>, drone: string)
    modifies srv
    ensures srv.Snap() == old(srv.Snap()).(events := old(srv.events) + ParamCallbacks(cf, groups, drone))
    ensures srv.Routing() == old(srv.Routing())
  {
    var i := 0;
    while i < |groups|
      invariant 0 <= i <= |groups|
      invariant srv.Snap() == old(srv.Snap()).(events := old(srv.events) + ParamCallbacks(cf, groups[..i], drone))
      invariant srv.Routing() == old(srv.Routing())
    {
      ParamCallbacksStep(cf, groups, i, drone, old(srv.events));
      srv.events := srv.events + [ParamUpdateCallback(cf, groups[i], drone)];
      i := i + 1;
    }
    assert groups[..i] == groups;
  }

  lemma AddParamCbConnected(f: Fleet, key: PyVal)
    requires key in f.drones && f.drones[key].connected
    ensures AddParamCb(f, key) == f.(events := f.events + ParamCallbacks(f.drones[key].cf, Groups(f.drones[key].paramToc), PyStr(key)))
  {
  }

  method OnParamUpdateOn(srv: Server, drone: string, param: string, value: PyVal) returns (raised: Option<Exc>)
    modifies srv
    ensures Ran(srv.Snap(), raised) == OnParamUpdate(old(srv.Snap()), drone, param, value)
    ensures srv.Routing() == old(srv.Routing())
  {
    var parts := Split(param, '.');
    if |parts| != 2 {
      return Some(ValueError);
    }
    srv.events := srv.events + [Send(Join([drone, parts[0], parts[1]], "/"), Value(value))];
    raised := None;
  }
}
