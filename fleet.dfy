/**
  The shared state of the fleet server of `server.py` as a value: the
  registered module names, the drone registry in insertion order, the
  client table, the LPS table, and the traces of calls made on external
  objects and of error reports. Handlers are specified by functions from
  one such value to the next.
 */
module Fleet {
  import opened Wrappers
  import opened Text
  import opened Registry

  /**
    One entry of `server.drones`: `radio_url`, `cf`, `connected`, the
    optional `logs` dict (keyed by the log name exactly as the message
    carried it) and the parameter and log tables of contents the radio
    library has fetched for `cf`.
   */
  datatype Record = Record(
    radioUrl: PyVal,
    cf: Handle,
    connected: bool,
    logs: Option<map<PyVal, LogEntry>>,
    paramToc: Toc,
    logToc: Toc)

  /**
    An entry of a record's `logs` dict: a bare `LogConfig` (the `osc_modules`
    tree) or a `Logger` wrapping one, with its variables in the order added
    and its `started` flag (the `server_osc_modules` tree).
   */
  datatype LogEntry = Config(config: LogConfig) | Kept(config: LogConfig, variables: seq<PyVal>, started: bool)

  /** Whether the entry counts as started for `log_not_started`; a bare configuration has no such flag. */
  function Started(e: LogEntry): bool {
    e.Kept? && e.started
  }

  /** A key of `osc_clients`: `(ip, port)` as received. */
  type ClientKey = (PyVal, PyVal)

  /** A `SimpleUDPClient(ip, port)`. */
  datatype UdpClient = UdpClient(host: PyVal, port: PyVal)

  datatype Fleet = Fleet(
    modules: set<string>,
    ids: seq<PyVal>,
    drones: map<PyVal, Record>,
    clients: map<ClientKey, UdpClient>,
    lpsNodeNumber: int,
    lpsPositions: seq<Option<Position>>,
    events: seq<Event>,
    errors: seq<Report>,
    /** How many external objects (radio handles, log configurations) have been made. */
    created: nat)

  /** The outcome of one handler call: the state after it, and the exception it raised, if any. */
  datatype Ran = Ran(f: Fleet, raised: Option<Exc>)

  predicate Distinct<T(==)>(s: seq<T>) {
    forall i, j :: 0 <= i < j < |s| ==> s[i] != s[j]
  }

  /** `ids` lists the keys of `drones`, each once: a dict with its insertion order. */
  ghost predicate Indexed(ids: seq<PyVal>, drones: map<PyVal, Record>) {
    Distinct(ids) && (forall k :: k in ids <==> k in drones)
  }

  /** `drones[k] = r`: a new key goes to the end of the order, an existing one keeps its place. */
  function Put(ids: seq<PyVal>, k: PyVal, drones: map<PyVal, Record>): (r: seq<PyVal>)
    ensures k in drones ==> r == ids
    ensures k !in drones ==> r == ids + [k]
  {
    if k in drones then ids else ids + [k]
  }

  lemma PutIndexed(ids: seq<PyVal>, drones: map<PyVal, Record>, k: PyVal, rec: Record)
    requires Indexed(ids, drones)
    ensures Indexed(Put(ids, k, drones), drones[k := rec])
  {
  }

  /** `del drones[k]`: the order of the remaining keys is kept. */
  function Without(ids: seq<PyVal>, k: PyVal): (r: seq<PyVal>)
    ensures |r| <= |ids|
    ensures forall x :: x in r <==> x in ids && x != k
  {
    if ids == [] then []
    else if ids[0] == k then Without(ids[1..], k)
    else [ids[0]] + Without(ids[1..], k)
  }

  lemma {:induction false} WithoutDistinct(ids: seq<PyVal>, k: PyVal)
    requires Distinct(ids)
    ensures Distinct(Without(ids, k))
  {
    if ids != [] {
      WithoutDistinct(ids[1..], k);
      var rest := Without(ids[1..], k);
      assert ids[0] !in rest;
      if ids[0] != k {
        var r := [ids[0]] + rest;
        forall i, j | 0 <= i < j < |r|
          ensures r[i] != r[j]
        {
          assert r[j] == rest[j - 1] && rest[j - 1] in rest;
          if i > 0 {
            assert r[i] == rest[i - 1];
          } else {
            assert r[i] == ids[0];
          }
        }
        assert Without(ids, k) == r;
      } else {
        assert Without(ids, k) == rest;
      }
    }
  }

  /** Deleting a key keeps the registry indexed and leaves the other records alone. */
  lemma WithoutIndexed(ids: seq<PyVal>, drones: map<PyVal, Record>, k: PyVal)
    requires Indexed(ids, drones)
    ensures Indexed(Without(ids, k), drones - {k})
  {
    WithoutDistinct(ids, k);
  }

  /**
    The log names `log_exists` can find, with their `started` flags: only
    keys that are strings can equal `str(log_name)`.
   */
  function LogNames(logs: Option<map<PyVal, LogEntry>>): (r: Option<map<string, bool>>)
    ensures r.Some? <==> logs.Some?
    ensures logs.Some? ==> forall s :: s in r.value <==> Str(s) in logs.value
    ensures logs.Some? ==> forall s :: s in r.value ==> r.value[s] == Started(logs.value[Str(s)])
  {
    match logs
    case None => None
    case Some(m) => Some(map k | k in m && k.Str? :: k.s := Started(m[k]))
  }

  function DroneViewOf(rec: Record): DroneView {
    DroneView(rec.connected, LogNames(rec.logs), rec.paramToc, rec.logToc)
  }

  /** What the validators read of a fleet state. */
  function ViewOf(f: Fleet): (v: View)
    ensures v.modules == f.modules && v.ids == f.ids
    ensures v.lpsNodeNumber == f.lpsNodeNumber && v.lpsPositions == f.lpsPositions
    ensures forall k :: k in v.drones <==> k in f.drones
    ensures forall k :: k in f.drones ==> v.drones[k] == DroneViewOf(f.drones[k])
  {
    View(f.modules, f.ids, map k | k in f.drones :: DroneViewOf(f.drones[k]), f.lpsNodeNumber, f.lpsPositions)
  }

  /** `get_connected_drones()`: the connected records, in registry order. */
  function ConnectedRecords(ids: seq<PyVal>, drones: map<PyVal, Record>): (r: seq<Record>)
    ensures |r| <= |ids|
    ensures forall x :: x in r <==> exists k :: k in ids && k in drones && drones[k] == x && x.connected
  {
    if ids == [] then []
    else
      var rest := ConnectedRecords(ids[1..], drones);
      assert forall k :: k in ids <==> k == ids[0] || k in ids[1..];
      if ids[0] in drones && drones[ids[0]].connected then [drones[ids[0]]] + rest else rest
  }

  /** There are as many connected records as connected ids, and the first record is that of the first id. */
  lemma {:induction false} ConnectedRecordsMatchIds(f: Fleet)
    ensures |ConnectedRecords(f.ids, f.drones)| == |ConnectedIds(f.ids, ViewOf(f).drones)|
    ensures ConnectedRecords(f.ids, f.drones) != [] ==>
      var k := ConnectedIds(f.ids, ViewOf(f).drones)[0];
      k in f.drones && ConnectedRecords(f.ids, f.drones)[0] == f.drones[k]
  {
    ConnectedRecordsMatch(f.ids, f.drones, ViewOf(f).drones);
  }

  lemma {:induction false} ConnectedRecordsMatch(ids: seq<PyVal>, drones: map<PyVal, Record>, views: map<PyVal, DroneView>)
    requires forall k :: k in views <==> k in drones
    requires forall k :: k in drones ==> views[k].connected == drones[k].connected
    ensures |ConnectedRecords(ids, drones)| == |ConnectedIds(ids, views)|
    ensures ConnectedRecords(ids, drones) != [] ==>
      ConnectedIds(ids, views)[0] in drones && ConnectedRecords(ids, drones)[0] == drones[ConnectedIds(ids, views)[0]]
  {
    if ids != [] {
      ConnectedRecordsMatch(ids[1..], drones, views);
    }
  }

  /** The effect of a verdict that is not `Pass`: a report is printed, an exception propagates. */
  function Refuse(f: Fleet, verdict: Verdict): (r: Ran)
    requires verdict != Pass
    ensures verdict.Reject? ==> r == Ran(f.(errors := f.errors + [verdict.report]), None)
    ensures verdict.Raise? ==> r == Ran(f, Some(verdict.exc))
  {
    match verdict
    case Reject(report) => Ran(f.(errors := f.errors + [report]), None)
    case Raise(exc) => Ran(f, Some(exc))
  }

  /** What `drone_connected` demands of an integer id: the CRAZYFLIE module, a record under that id, and the record connected. */
  predicate ConnectedId(f: Fleet, id: int) {
    "CRAZYFLIE" in f.modules && Int(id) in f.drones && f.drones[Int(id)].connected
  }

  /** `g` is `f` with exactly one error report appended and nothing else changed. */
  predicate OneReport(f: Fleet, g: Fleet) {
    g.(errors := f.errors) == f && |g.errors| == |f.errors| + 1 && g.errors[..|f.errors|] == f.errors
  }

  /** Two stacked decorators: the outer check first, the inner one only if the outer passes. */
  function Then(outer: Verdict, inner: Verdict): (r: Verdict)
    ensures r == Pass <==> outer == Pass && inner == Pass
    ensures outer != Pass ==> r == outer
  {
    if outer != Pass then outer else inner
  }

  /** Python truthiness of a message argument; a float is false exactly when it prints as a zero. */
  function Truthy(v: PyVal): bool {
    match v
    case Str(s) => s != []
    case Int(i) => i != 0
    case Bool(b) => b
    case Real(_, text) => text != "0.0" && text != "-0.0"
  }
}
