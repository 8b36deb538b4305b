/**
  The `Logger` of the `server_osc_modules` tree: a log configuration with
  the names of the variables added to it, in order, and whether it was
  started. The registry keeps each logger's value as a `Kept` entry; the
  functions here give the entry after each of the logger's methods, and
  the class is the logger itself, whose methods are proved against them.
 */
module Loggers {
  import opened Registry
  import opened Fleet

  /** `Logger(log)`: no variables, not started. */
  function NewLogger(config: LogConfig): (e: LogEntry)
    ensures e.Kept? && e.config == config && e.variables == [] && !Started(e)
  {
    Kept(config, [], false)
  }

  /**
    An entry read as a logger. The entries of this tree are all loggers; a
    bare configuration, which only the other tree stores, reads as a logger
    with no variables that was not started.
   */
  function AsLogger(e: LogEntry): (l: LogEntry)
    ensures l.Kept? && l.config == e.config && Started(l) == Started(e)
    ensures e.Kept? ==> l == e
  {
    if e.Kept? then e else Kept(e.config, [], false)
  }

  /** The logger after `add_variable(var, var_type)`: the name at the end of its variables. */
  function WithVariable(e: LogEntry, variable: PyVal): (l: LogEntry)
    ensures l.Kept? && l.config == e.config && Started(l) == Started(e)
    ensures l.variables == AsLogger(e).variables + [variable]
  {
    var k := AsLogger(e);
    k.(variables := k.variables + [variable])
  }

  /** The logger after `start()`. */
  function StartedLogger(e: LogEntry): (l: LogEntry)
    ensures l.Kept? && l.config == e.config && l.variables == AsLogger(e).variables && Started(l)
  {
    var k := AsLogger(e);
    Kept(k.config, k.variables, true)
  }

  /** Variables added one after the other are kept in the order added. */
  lemma {:induction false} VariablesInOrder(e: LogEntry, vs: seq<PyVal>)
    ensures AddAll(e, vs).variables == AsLogger(e).variables + vs
    ensures Started(AddAll(e, vs)) == Started(e) && AddAll(e, vs).config == e.config
  {
    if vs != [] {
      VariablesInOrder(e, vs[..|vs| - 1]);
      assert vs == vs[..|vs| - 1] + [vs[|vs| - 1]];
    }
  }

  /** `add_variable` for each name of `vs`, in order. */
  function AddAll(e: LogEntry, vs: seq<PyVal>): LogEntry {
    if vs == [] then AsLogger(e) else WithVariable(AddAll(e, vs[..|vs| - 1]), vs[|vs| - 1])
  }

  class Logger {
    var config: LogConfig
    var variables: seq<PyVal>
    var started: bool

    /** The value the registry keeps for this logger. */
    function Entry(): LogEntry
      reads this
    {
      Kept(config, variables, started)
    }

    constructor (log: LogConfig)
      ensures Entry() == NewLogger(log)
    {
      config := log;
      variables := [];
      started := false;
    }

    /** `add_variable`: the name is appended, then the configuration gets the variable. */
    method AddVariable(variable: PyVal, varType: PyVal) returns (call: Event)
      modifies this
      ensures Entry() == WithVariable(old(Entry()), variable)
      ensures call == ConfigAddVariable(config, variable, varType)
    {
      variables := variables + [variable];
      call := ConfigAddVariable(config, variable, varType);
    }

    /** `add_data_received_callback`: the callback the handler built is registered on the configuration. */
    method AddDataReceivedCallback(id: int, logName: string) returns (call: Event)
      ensures call == DataCallback(config, id, logName)
    {
      call := DataCallback(config, id, logName);
    }

    /** `add_error_callback`: the module's error reporter is registered on the configuration. */
    method AddErrorCallback() returns (call: Event)
      ensures call == ErrorCallback(config)
    {
      call := ErrorCallback(config);
    }

    /** `start`: the flag is set, then the configuration is started. */
    method Start() returns (call: Event)
      modifies this
      ensures Entry() == StartedLogger(old(Entry()))
      ensures call == ConfigStart(config)
    {
      started := true;
      call := ConfigStart(config);
    }
  }
}
