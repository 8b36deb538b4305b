/**
  `MetaServerModule.py`: `InnerServer`, which keeps at most one child
  process running the inner server, and the module whose `start`, `stop`
  and `/restart` drive it. The child process is an opaque handle; the calls
  made on it (`Popen`, `send_signal(SIGINT)`, `kill`, `wait`) are recorded
  in order. Whether `send_signal` raises is decided by the operating
  system, so it is a parameter.
 */
module MetaServer {
  import opened Wrappers
  import opened Registry

  /** A child process: the serial of its `Popen` call and its command line. */
  datatype Proc = Proc(serial: nat, command: seq<string>)

  /** A call made on the process layer. */
  datatype ProcCall = Spawn(proc: Proc) | Interrupt(proc: Proc) | Kill(proc: Proc) | Wait(proc: Proc)

  /** The arguments dict of `start`: its keys in the dict's order, with their values. */
  type Arguments = seq<(string, PyVal)>

  /** `'--' + k, str(v)` for each key, in order. */
  function Flags(arguments: Arguments): (flags: seq<string>)
    ensures |flags| == 2 * |arguments|
  {
    if arguments == [] then []
    else Flags(arguments[..|arguments| - 1]) + Flag(arguments[|arguments| - 1])
  }

  function Flag(kv: (string, PyVal)): seq<string> {
    ["--" + kv.0, PyStr(kv.1)]
  }

  /** The command line `start` passes to `Popen`. */
  function Command(processName: string, args: seq<string>, arguments: Arguments): (c: seq<string>)
    ensures |c| == 1 + |args| + 2 * |arguments| && c[0] == processName
  {
    [processName] + args + Flags(arguments)
  }

  /**
    The command is the process name, then the fixed arguments, then for the
    key at position `i` the word `--key` at `1 + |args| + 2i` followed by
    `str(value)`: `1 + |args| + 2·|keys|` words in all.
   */
  lemma {:induction false} CommandLayout(processName: string, args: seq<string>, arguments: Arguments)
    ensures var c := Command(processName, args, arguments);
      |c| == 1 + |args| + 2 * |arguments|
      && c[0] == processName && c[1..1 + |args|] == args
      && forall i :: 0 <= i < |arguments| ==>
           c[1 + |args| + 2 * i] == "--" + arguments[i].0 && c[2 + |args| + 2 * i] == PyStr(arguments[i].1)
  {
    FlagsLayout(arguments);
    var c := Command(processName, args, arguments);
    assert c[1..1 + |args|] == args;
  }

  lemma {:induction false} FlagsLayout(arguments: Arguments)
    ensures forall i :: 0 <= i < |arguments| ==>
      Flags(arguments)[2 * i] == "--" + arguments[i].0 && Flags(arguments)[2 * i + 1] == PyStr(arguments[i].1)
  {
    if arguments != [] {
      var init := arguments[..|arguments| - 1];
      FlagsLayout(init);
      forall i | 0 <= i < |arguments|
        ensures Flags(arguments)[2 * i] == "--" + arguments[i].0 && Flags(arguments)[2 * i + 1] == PyStr(arguments[i].1)
      {
        if i < |init| {
          assert arguments[i] == init[i];
        }
      }
    }
  }

  class InnerServer {
    /** `self.proc`: the running child process, if any. */
    var proc: Option<Proc>
    const processName: string
    const args: seq<string>
    /** The calls made on child processes, in order. */
    var calls: seq<ProcCall>
    /** The number of `Popen` calls made so far. */
    var spawned: nat

    /** `InnerServer(process_name, *args)`: no process yet. */
    constructor (processName: string, args: seq<string>)
      ensures proc == None && this.processName == processName && this.args == args
      ensures calls == [] && spawned == 0
    {
      proc := None;
      this.processName := processName;
      this.args := args;
      calls := [];
      spawned := 0;
    }

    /**
      `start(arguments)`: while a process is held nothing happens; otherwise
      the command is assembled and a new process is spawned with it.
     */
    method Start(arguments: Arguments)
      modifies this
      ensures old(proc).Some? ==> proc == old(proc) && calls == old(calls) && spawned == old(spawned)
      ensures old(proc).None? ==>
        var p := Proc(old(spawned), Command(processName, args, arguments));
        proc == Some(p) && calls == old(calls) + [Spawn(p)] && spawned == old(spawned) + 1
    {
      if proc.None? {
        var command := AssembleCommand(processName, args, arguments);
        var p := Proc(spawned, command);
        proc := Some(p);
        calls := calls + [Spawn(p)];
        spawned := spawned + 1;
      }
    }

    /**
      `stop()`: without a process nothing happens; otherwise it is sent
      SIGINT, killed if that raised, waited for, and always forgotten.
     */
    method Stop(signalFails: bool)
      modifies this
      ensures proc == None && spawned == old(spawned)
      ensures calls == old(calls) + StopCalls(old(proc), signalFails)
    {
      if proc.Some? {
        var p := proc.value;
        calls := calls + [Interrupt(p)];
        if signalFails {
          calls := calls + [Kill(p)];
        }
        calls := calls + [Wait(p)];
        proc := None;
      }
    }

    /** `restart(arguments)`: `stop()` then `start(arguments)`. */
    method Restart(arguments: Arguments, signalFails: bool)
      modifies this
      ensures var p := Proc(old(spawned), Command(processName, args, arguments));
        proc == Some(p) && spawned == old(spawned) + 1
        && calls == old(calls) + StopCalls(old(proc), signalFails) + [Spawn(p)]
    {
      Stop(signalFails);
      Start(arguments);
    }
  }

  /** The calls `stop()` makes on the process it holds, if any. */
  function StopCalls(proc: Option<Proc>, signalFails: bool): (cs: seq<ProcCall>)
    ensures proc.None? <==> cs == []
    ensures proc.Some? ==> cs[0] == Interrupt(proc.value) && cs[|cs| - 1] == Wait(proc.value)
    ensures proc.Some? ==> (Kill(proc.value) in cs <==> signalFails)
  {
    match proc
    case None => []
    case Some(p) => [Interrupt(p)] + (if signalFails then [Kill(p)] else []) + [Wait(p)]
  }

  /** The loop of `start` that builds the command word by word. */
  method AssembleCommand(processName: string, args: seq<string>, arguments: Arguments) returns (command: seq<string>)
    ensures command == Command(processName, args, arguments)
  {
    command := [processName] + args;
    var i := 0;
    while i < |arguments|
      invariant 0 <= i <= |arguments|
      invariant command == [processName] + args + Flags(arguments[..i])
    {
      assert arguments[..i + 1][..i] == arguments[..i];
      command := command + ["--" + arguments[i].0];
      command := command + [PyStr(arguments[i].1)];
      i := i + 1;
    }
    assert arguments[..i] == arguments;
  }

  /** The command-line options of the outer server that the module reads. */
  datatype ServerArgs = ServerArgs(ip: PyVal, innerPort: PyVal)

  /** The dict `{'ip': args.ip, 'port': args.inner_port}` of `start` and `osc_restart`. */
  function InnerArguments(a: ServerArgs): (arguments: Arguments)
    ensures |arguments| == 2 && arguments[0] == ("ip", a.ip) && arguments[1] == ("port", a.innerPort)
  {
    [("ip", a.ip), ("port", a.innerPort)]
  }

  /** The inner server is started as `python ./inner_server.py --ip <ip> --port <inner_port>`. */
  lemma InnerCommand(a: ServerArgs)
    ensures Command("python", ["./inner_server.py"], InnerArguments(a))
      == ["python", "./inner_server.py", "--ip", PyStr(a.ip), "--port", PyStr(a.innerPort)]
  {
    var kvs := InnerArguments(a);
    assert "--" + "ip" == "--ip" && "--" + "port" == "--port";
    assert kvs[..1][..0] == [];
    assert Flags(kvs[..1]) == Flag(kvs[0]);
    assert Flags(kvs) == Flag(kvs[0]) + Flag(kvs[1]);
  }

  /**
    `MetaServerModule`: `server.inner_server` is the field `inner`, absent
    (`null`) until the module is started.
   */
  class MetaServerModule {
    var inner: InnerServer?
    const serverArgs: ServerArgs

    constructor (serverArgs: ServerArgs)
      ensures inner == null && this.serverArgs == serverArgs
    {
      inner := null;
      this.serverArgs := serverArgs;
    }

    /** `start()`: a new `InnerServer('python', './inner_server.py')`, started at once. */
    method Start()
      modifies this
      ensures inner != null && fresh(inner)
      ensures inner.processName == "python" && inner.args == ["./inner_server.py"]
      ensures inner.proc == Some(Proc(0, Command("python", ["./inner_server.py"], InnerArguments(serverArgs))))
      ensures inner.calls == [Spawn(inner.proc.value)] && inner.spawned == 1
    {
      var s := new InnerServer("python", ["./inner_server.py"]);
      s.Start(InnerArguments(serverArgs));
      inner := s;
    }

    /**
      `osc_restart`: the held inner server is restarted with the same two
      options. Before `start()`, reading `server.inner_server` raises.
     */
    method OscRestart(signalFails: bool) returns (raised: Option<Exc>)
      modifies inner
      ensures raised.Some? <==> inner == null
      ensures raised.Some? ==> raised.value == AttributeError
      ensures inner != null ==>
        var p := Proc(old(inner.spawned), Command(inner.processName, inner.args, InnerArguments(serverArgs)));
        inner.proc == Some(p) && inner.spawned == old(inner.spawned) + 1
        && inner.calls == old(inner.calls) + StopCalls(old(inner.proc), signalFails) + [Spawn(p)]
    {
      if inner == null {
        return Some(AttributeError);
      }
      inner.Restart(InnerArguments(serverArgs), signalFails);
      raised := None;
    }

    /** `stop()`: the held inner server is stopped. Before `start()` it raises. */
    method Stop(signalFails: bool) returns (raised: Option<Exc>)
      modifies inner
      ensures raised.Some? <==> inner == null
      ensures raised.Some? ==> raised.value == AttributeError
      ensures inner != null ==>
        inner.proc == None && inner.spawned == old(inner.spawned)
        && inner.calls == old(inner.calls) + StopCalls(old(inner.proc), signalFails)
    {
      if inner == null {
        return Some(AttributeError);
      }
      inner.Stop(signalFails);
      raised := None;
    }
  }
}
