# crazyflie-osc: the OSC command-routing core, in Dafny

crazyflie-osc is a server that drives a fleet of Crazyflie drones from
OSC messages. Every module of the server (CRAZYFLIE, LPS, LOG, PARAM,
CLIENT, SERVER) registers routes such as `/crazyflie/{drone_id}/goal` with
a dispatcher. Decorators then check what a handler needs before it runs:
the module is present, the drone exists and is connected, the log exists
and is not started, the parameter is in the table of contents, the LPS
node index is in range. Fan-out decorators take a selector (`*`, a
`;`-separated list, or one id) and call the handler once per target,
catching what each call raises.

This project models that core over one shared server state, as values and
as objects:

- **State.** The state is a `Fleet` value (`fleet.dfy`). It holds:
  - the registered module names;
  - the drone registry, kept as a key order plus a map, so that Python's dict
    insertion order is kept;
  - the LPS node count and positions;
  - the UDP client table;
  - the calls made on external objects (radio handles, log
    configurations, UDP clients), recorded in order;
  - the error reports printed by `_error`.
- **Handlers.** Each handler is a function `XxxAt(f, ...)` that returns
  the new state and the exception it raised, if any. A method `XxxOn` runs
  the handler on the heap object `FleetServer.Server` and is proved to
  give exactly that result.
- **Loops.** The fan-out loops (`RunFan`, `RunNodeFan`, `RunServerFan`)
  are `while` loops proved against the recursive functions `Fan`,
  `NodeFan` and `ServerFan`.
- **Objects.** The objects the source updates in place are classes:
  - `OscRouting.OscModule`: base topic, route list, dispatcher registrations;
  - `FleetServer.Server` and `InnerServing.Server`;
  - `Loggers.Logger`;
  - `MetaServer.InnerServer` and `MetaServer.MetaServerModule`;
  - the scripting client `ScriptClient.Client`.
- **Pure code.** Route templates, selectors, validators, the script
  client's converters and its macro expansion are functions.

Python's `is` on strings and small ints is read as equality. `int()`,
`str()`, `sorted`, `split` and `join` are written out (`Registry`, `Text`,
`TocOrder`). The source has two trees: `src/osc_modules` (the older one,
used by `server.py`) and `src/server_osc_modules` (used by
`inner_server.py`). Where the two trees differ, both versions are modelled
and compared.

## Model

| member | source | states |
|---|---|---|
| OscRouting.CloseBrace | src/osc_modules/OscModule.py:10 | the lazy `\{(.*?)\}` closes a placeholder at the first `}` after it, and finds none when a newline comes first |
| OscRouting.Parse | src/osc_modules/OscModule.py:10 | placeholder names never hold `}` or a newline |
| OscRouting.RegexToTopic | src/osc_modules/OscModule.py:18-19 | every placeholder, braces included, becomes one `*`, so the topic is never longer than the template |
| OscRouting.ParseUnparse | src/osc_modules/OscModule.py:10 | splitting a template into literal text and placeholders loses nothing: the pieces spell the template again |
| OscRouting.RegexToTopicIsWildcard | src/osc_modules/OscModule.py:18-19 | `regex_to_topic` keeps every literal character and puts one `*` where each placeholder stood |
| OscRouting.Regexed | src/osc_modules/OscModule.py:6-15 | the wrapper raises on group names `re` refuses and on an address that does not match, and the handler is then not called; on a match the handler gets exactly one keyword argument per placeholder name |
| OscRouting.GreedyWitness | src/osc_modules/OscModule.py:10-12 | a greedy `.*` group that succeeds stopped at a length where the rest of the pattern matched |
| OscRouting.GreedyFinds | src/osc_modules/OscModule.py:10-12 | if the rest matches after some length of the group, the backtracking search succeeds |
| OscRouting.GreedySkip | src/osc_modules/OscModule.py:10-12 | the backtracking search skips every longer length at which the rest fails |
| OscRouting.Match | src/osc_modules/OscModule.py:12-13 | a match binds exactly the placeholder names, so `groupdict()` has one key per placeholder |
| OscRouting.Greedy | src/osc_modules/OscModule.py:10-12 | a successful backtracking search for group `n` binds `n` and the names of the rest of the pattern, and no other |
| OscRouting.MatchIgnoresTrailing | src/osc_modules/OscModule.py:12 | `re.match` is anchored only at the start: text appended to a matching address still matches |
| OscRouting.OnePlaceholder | src/osc_modules/OscModule.py:10-12 | for `P{n}S`, the address `P + s + S` binds `n` to exactly `s`, although the group is greedy |
| OscRouting.HoleBindsValue | src/osc_modules/OscModule.py:10-12 | a group followed by a `/`-led rest binds exactly the slash-free value in front of it |
| OscRouting.FillMatches | src/osc_modules/OscModule.py:6-13 | for a template whose placeholders are each followed by `/` or end it, an address made by filling in slash-free values hands the handler exactly those values |
| OscRouting.OneHoleTemplate | src/osc_modules/OscModule.py:10 | `P{n}S` reads as literal `P`, placeholder `n`, literal `S` |
| OscRouting.OneHoleTopic | src/osc_modules/OscModule.py:10-19 | `P{n}S` parses as literal, placeholder, literal, and `regex_to_topic` turns it into `P*S` |
| OscRouting.OneHoleRoute | src/osc_modules/OscModule.py:6-19 | one route with one placeholder: the dispatcher topic has `*` in its place, and the handler gets the value the address puts there |
| OscRouting.TopicReg | src/osc_modules/OscModule.py:24-27 | the full template is the base topic, one `/`, then the sub-topic without a doubled slash; an empty sub-topic raises `IndexError` (`None`) |
| OscRouting.TopicRegSlashOptional | src/osc_modules/OscModule.py:24-27 | a sub-topic gives the same template with or without its leading `/` |
| OscRouting.NormaliseBase | src/osc_modules/OscModule.py:30-34 | exactly one trailing `/` is dropped from the base topic, and nothing else changes; an empty base raises `IndexError` |
| OscRouting.OscModule.constructor | src/osc_modules/OscModule.py:30-39 | the normalised base topic, no dispatcher, no routes |
| OscRouting.OscModule.Create | src/osc_modules/OscModule.py:30-39 | a module exists iff the base topic is not empty, with the normalised base, no dispatcher and no routes |
| OscRouting.OscModule.AddRoute | src/osc_modules/OscModule.py:42-49 | one full template is appended to `_routes` and its wildcard topic is mapped once; an empty sub-topic, or no dispatcher, raises with neither done |
| OscRouting.OscModule.Attach | src/osc_modules/OscModule.py:69-79 | the dispatcher is stored, then the sub-topics are registered in order up to the first empty one, which raises; the route list and the dispatcher calls grow by exactly those templates |
| OscRouting.Leading | src/osc_modules/OscModule.py:69-74 | how many sub-topics `routes()` registers before one raises: all before it are non-empty |
| OscRouting.LeadingAt | src/osc_modules/OscModule.py:69-74 | registration stops exactly at the first empty sub-topic, or at the end |
| OscRouting.AttachStep | src/osc_modules/OscModule.py:42-49 | one more registered sub-topic adds its template and its dispatcher mapping at the end |
| OscRouting.TemplatesAppend | src/osc_modules/OscModule.py:49 | templates of a longer list of sub-topics extend those of the shorter list |
| OscValidators.OscRequires | src/osc_modules/osc_validators.py:1-9 | the handler runs iff the module is registered; otherwise a "module not found" report and nothing else |
| OscValidators.DroneExists | src/osc_modules/osc_validators.py:12-23 | passes iff CRAZYFLIE is present, `int(drone_id)` converts and that int is a registry key; a malformed id raises `ValueError`; a missing one gives "drone not found" |
| OscValidators.LpsNodeExistsAsWritten | src/osc_modules/osc_validators.py:26-37 | passes iff `node_id < lps_node_number`, negative ids included; an index out of range raises `TypeError` (str + int in the message) |
| OscValidators.LpsNodeOutOfRangeRaises | src/osc_modules/osc_validators.py:33-34 | an out-of-range index never gets the "Bad node_id" report: it raises `TypeError` |
| OscValidators.LogExists | src/osc_modules/osc_validators.py:40-54 | passes iff LOG, `drone_exists`, and the record has a `logs` dict holding `str(log_name)`; a failing `drone_exists` verdict is passed on |
| OscValidators.OneDroneConnected | src/osc_modules/osc_validators.py:57-64 | passes iff CRAZYFLIE is present and some registered drone is connected; otherwise "no drones connected" |
| OscValidators.DroneConnected | src/osc_modules/osc_validators.py:67-75 | passes iff `drone_exists` passes and the record is connected; a failing `drone_exists` verdict is passed on, and a disconnected drone gets "not connected" |
| OscValidators.ParamExistsAsWritten | src/osc_modules/osc_validators.py:78-93 | never passes: after PARAM and `drone_connected` the lookup reads `self.drones`, which raises `AttributeError` |
| OscValidators.Convert | src/osc_modules/osc_validators.py:111 | `int(drone_id)` of one target: an id, or `ValueError` |
| OscValidators.TokenTargets | src/osc_modules/osc_validators.py:105-108 | a selector without `;` is one target; otherwise one target per `;`-separated token |
| OscValidators.OscDronePlan | src/osc_modules/osc_validators.py:99-111 | as written: no CRAZYFLIE refuses; `*` yields one target per connected record, each raising `TypeError` at `int()`; a non-string selector raises `TypeError`; other selectors are split on `;` |
| OscValidators.OscDronePlanFixed | src/osc_modules/osc_validators.py:99-111 | with the selector read through `str()` and `*` giving the connected ids in registry order |
| OscValidators.Called | src/osc_modules/osc_validators.py:110-115 | the handler is called on the longest prefix of targets that convert, in order |
| OscValidators.Aborted | src/osc_modules/osc_validators.py:110-111 | the loop ends with an exception iff some target does not convert, and it is that target's exception |
| OscValidators.StarWithNoneConnected | src/osc_modules/osc_validators.py:103-110 | with no connected drone, `*` calls nothing and raises nothing |
| OscValidators.StarAbortsAsWritten | src/osc_modules/osc_validators.py:103-111 | with a connected drone, `*` as written calls nothing and ends with `TypeError` |
| OscValidators.IntSelectorFailsAsWritten | src/osc_modules/osc_validators.py:102-105 | an int selector makes `';' not in drones` raise `TypeError` before any call |
| OscValidators.CalledAllConvertible | src/osc_modules/osc_validators.py:110-115 | when every target is an id, each is called, in order, and nothing escapes |
| OscValidators.SelectorListInOrder | src/osc_modules/osc_validators.py:105-115 | a `;`-list of ids is processed once per id in the order written, by the plan as written and by the fixed plan alike |
| OscValidators.SingleSelector | src/osc_modules/osc_validators.py:105-106 | `str(n)` is not `*` and names the one target `n` |
| OscValidators.IntSelectorFixed | src/osc_modules/osc_validators.py:102-113 | with the selector read through `str()`, an int selector gives exactly one target, that id, and the handler is called once for it |
| OscValidators.StarCallsConnectedFixed | src/osc_modules/osc_validators.py:103-115 | with the fix, `*` calls the handler once per connected drone, in registry order |
| ServerValidators.LpsNodeExists | src/server_osc_modules/osc_validators.py:31-43 | passes iff `node_id < lps_node_number`, negative ids included; otherwise only the "Bad node_id" report, built with `str()` |
| ServerValidators.LpsNodeChecksAgree | src/server_osc_modules/osc_validators.py:31-43 | both trees' node checks pass the same indices; exactly where this tree reports "Bad node_id", the other raises `TypeError` |
| ServerValidators.PyIndex | src/server_osc_modules/osc_validators.py:51 | a Python list index designates a position iff it is in `-len .. len-1`, negative ones counting from the end |
| ServerValidators.LpsNodeHasPosition | src/server_osc_modules/osc_validators.py:46-55 | passes iff `lps_node_exists` passes and `lps_positions[node_id]` is not `None`; an index past the list raises `IndexError`; a missing position gets "position not set" |
| ServerValidators.NoPositionsNoPass | src/server_osc_modules/osc_validators.py:46-55 | when no position was ever stored, no node passes |
| ServerValidators.LogNotStarted | src/server_osc_modules/osc_validators.py:76-87 | passes iff `log_exists` passes and that logger is not started; a failing `log_exists` verdict is passed on; a started log gets "already started" |
| ServerValidators.ParamExists | src/server_osc_modules/osc_validators.py:112-128 | passes iff PARAM, `drone_connected`, the group is in the drone's parameter TOC and the name in that group; otherwise the right report |
| ServerValidators.ParamChecksAgreeOffToc | src/server_osc_modules/osc_validators.py:112-128 | where the `osc_modules` check does not reach its TOC lookup, both trees' `param_exists` agree |
| ServerValidators.ServerDronePlan | src/server_osc_modules/osc_validators.py:133-146 | the selector goes through `str()`; `*` gives every registry key, connected or not, in insertion order; otherwise it is split on `;` |
| ServerValidators.Range | src/server_osc_modules/osc_validators.py:162 | `range(0, n)`: the targets `0 .. n-1`, none for a negative `n` |
| ServerValidators.NodePlan | src/server_osc_modules/osc_validators.py:156-169 | the selector goes through `str()`; `*` gives `0 .. lps_node_number-1`; otherwise it is split on `;` |
| ServerValidators.StarNodesAll | src/server_osc_modules/osc_validators.py:160-173 | `*` over nodes reaches every index below the node count, in order, and raises nothing |
| ServerValidators.StarDronesAllKeys | src/server_osc_modules/osc_validators.py:137-146 | `*` over drones reaches every registry key, connected or not |
| Registry.PyStr | src/server_osc_modules/osc_validators.py:137-146 | `str(v)`: a string is itself, and the text of an int reads back through `int()` as that int, so an id that went through a selector string comes back unchanged |
| Registry.TocNames | src/server_osc_modules/osc_validators.py:113-114 | the names of a group are those of the table entry with that group name |
| Registry.ConnectedIds | src/osc_modules/CrazyflieModule.py:111-112 | the registry keys whose record is connected, in insertion order |
| Registry.ConnectedIdsAppend | src/osc_modules/CrazyflieModule.py:111-112 | a key added to the registry joins the connected list exactly when its record is connected |
| Fleet.PutIndexed | src/osc_modules/CrazyflieModule.py:39-44 | a store keeps the registry a list of its keys, each once |
| Fleet.Without | src/osc_modules/CrazyflieModule.py:108 | `del drones[k]`: exactly the other keys remain |
| Fleet.WithoutDistinct | src/osc_modules/CrazyflieModule.py:108 | removing a key keeps the order free of repeats |
| Fleet.WithoutIndexed | src/osc_modules/CrazyflieModule.py:108 | a deletion keeps the registry a list of its keys, each once |
| Fleet.LogNames | src/osc_modules/osc_validators.py:40-42 | `log_exists` finds exactly the string keys of `logs`, with their `started` flags |
| Fleet.ConnectedRecords | src/osc_modules/CrazyflieModule.py:111-112 | `get_connected_drones()`: exactly the connected records |
| Fleet.ConnectedRecordsMatchIds | src/osc_modules/CrazyflieModule.py:111-112 | there are as many connected records as connected ids, and the first record is that of the first id |
| Fleet.Then | src/osc_modules/osc_validators.py:44-47 | stacked decorators: the outer check decides first, the inner one only when the outer passes |
| TocOrder.StrLeTrans | src/osc_modules/ParamModule.py:66 | Python's string `<=` is transitive |
| TocOrder.StrLeAntisym | src/osc_modules/ParamModule.py:66 | Python's string `<=` is antisymmetric |
| TocOrder.StrLeTotal | src/osc_modules/ParamModule.py:66 | any two strings are ordered one way or the other |
| TocOrder.Insert | src/osc_modules/ParamModule.py:66 | inserting into an ascending list keeps it ascending and adds exactly the element |
| TocOrder.Sort | src/osc_modules/ParamModule.py:66 | `sorted(names)` is ascending and a permutation of its input |
| TocOrder.AscendingUnique | src/osc_modules/ParamModule.py:66 | two ascending lists with the same elements are equal |
| TocOrder.SortCanonical | src/osc_modules/ParamModule.py:66 | sorting does not depend on the input's order, and sorting twice changes nothing |
| TocOrder.SortedToc | src/osc_modules/ParamModule.py:63-67 | the `{group: sorted(names)}` table keeps the groups in their order |
| TocOrder.SortedTocEntry | src/osc_modules/ParamModule.py:66 | each group of the table is paired with its names sorted |
| TocOrder.SortedTocLookup | src/osc_modules/ParamModule.py:90-91 | looking a group up in the sorted table gives the sorted names of that group |
| Text.JoinSplit | src/osc_modules/osc_validators.py:108 | joining the `;`-split parts gives the selector back |
| Text.SplitJoin | src/osc_modules/osc_validators.py:108 | splitting a `;`-joined list of `;`-free words gives the words back |
| Text.ParseIntToStr | src/osc_modules/osc_validators.py:111 | `int(str(n)) == n` on the string level |
| Text.Split | src/osc_modules/osc_validators.py:108 | `s.split(c)` gives at least one part, and no part holds the separator |
| Text.Replace | manual_tests/test_client.py:58 | replacing a pattern by itself changes nothing, and a text shorter than the pattern is left alone |
| Text.ReplaceAbsent | manual_tests/test_client.py:58 | a pattern that occurs nowhere in the text leaves it unchanged |
| Text.Strip | manual_tests/test_client.py:61 | `strip()` is no longer than the text and neither starts nor ends with whitespace |
| Text.IntToStr | src/osc_modules/ParamModule.py:113 | `str(n)` is the decimal digits of `n`, after a minus sign when `n` is negative |
| Text.ParseInt | src/osc_modules/osc_validators.py:111 | `int(s)` succeeds only on a text that holds a digit |
| CrazyflieHandlers.Admit | src/osc_modules/CrazyflieModule.py:37-73 | a key already present leaves everything alone; a new key gets a record at the end of the registry with a fresh, unconnected handle and the three callbacks installed |
| CrazyflieHandlers.AddDroneAt | src/osc_modules/CrazyflieModule.py:28-78 | `osc_add_drone` raises exactly when `int(drone_id)` fails, and then changes nothing |
| CrazyflieHandlers.AddNewDrone | src/osc_modules/CrazyflieModule.py:37-76 | a new id: the record joins the end of the registry with a fresh handle, the callbacks are installed and the link is opened with the message's URL |
| CrazyflieHandlers.AddKnownDrone | src/osc_modules/CrazyflieModule.py:37-78 | a known id keeps its record and handle: an unconnected one gets `open_link` with the new URL, a connected one only the "already added and connected" report |
| CrazyflieHandlers.AddTwiceKeepsRecord | src/osc_modules/CrazyflieModule.py:37-44 | a second add of the same id never replaces the record the first one made |
| CrazyflieHandlers.AddDroneIndexed | src/osc_modules/CrazyflieModule.py:37-44 | adding keeps the registry order a list of its keys, each once |
| CrazyflieHandlers.OnConnectionAt | src/osc_modules/CrazyflieModule.py:47-57 | the connection callback of a removed drone raises `KeyError` and changes nothing |
| CrazyflieHandlers.Connected | src/osc_modules/CrazyflieModule.py:49-51 | the record is marked connected, every other record and the registry order are kept, and one `set_value('flightmode.posSet', '1')` is made on its handle; nothing else changes |
| CrazyflieHandlers.ConnectionMarksConnected | src/osc_modules/CrazyflieModule.py:47-57 | corrected (the selector given to `osc_update_lps_pos`, Findings row 8): for a registered drone the callback raises nothing, marks it connected, sets `flightmode.posSet` to `1`, and otherwise only makes calls and reports; without LPS that call is all |
| CrazyflieHandlers.OnConnectionFailedAt | src/osc_modules/CrazyflieModule.py:59-60 | a failed connection adds exactly one report, naming the drone and the message |
| CrazyflieHandlers.OnDisconnectionAt | src/osc_modules/CrazyflieModule.py:62-64 | the report comes first, then the record is marked not connected; a removed drone raises `KeyError` after the report |
| CrazyflieHandlers.ConnectThenDisconnect | src/osc_modules/CrazyflieModule.py:47-64 | a connection then a disconnection leaves the record as it was but not connected, and the registry order unchanged |
| CrazyflieHandlers.GoalAt | src/osc_modules/CrazyflieModule.py:81-94 | behind `drone_connected`: one setpoint `(y, x, yaw, z)` sent to that drone and nothing stored; a refusal is the validator's |
| CrazyflieHandlers.RemoveDroneAt | src/osc_modules/CrazyflieModule.py:97-108 | behind `drone_exists`: the link is closed only if connected, the key is gone, every other record stays as it was |
| CrazyflieHandlers.CloseCalls | src/osc_modules/CrazyflieModule.py:105-106 | `close_link` on the record's handle exactly when it is connected, and no other call |
| CrazyflieHandlers.RemoveDroneIndexed | src/osc_modules/CrazyflieModule.py:108 | removing keeps the registry order a list of its keys, each once |
| CrazyflieHandlers.WithoutAppended | src/osc_modules/CrazyflieModule.py:40-108 | deleting the key added last gives the old order back |
| CrazyflieHandlers.AddThenRemove | src/osc_modules/CrazyflieModule.py:28-108 | adding a new id and removing it again restores the registry exactly; only the callbacks and the opened link remain as calls |
| CrazyflieHandlers.AddDroneOn | src/osc_modules/CrazyflieModule.py:28-78 | on the server, the state and exception `AddDroneAt` gives; module table untouched |
| CrazyflieHandlers.AdmitOn | src/osc_modules/CrazyflieModule.py:37-73 | on the server, the state `Admit` gives |
| CrazyflieHandlers.OnConnectionOn | src/osc_modules/CrazyflieModule.py:47-57 | on the server, the state and exception `OnConnectionAt` gives |
| CrazyflieHandlers.MarkConnectedOn | src/osc_modules/CrazyflieModule.py:49-51 | on the server, the record marked connected and `posSet` sent |
| CrazyflieHandlers.OnConnectionFailedOn | src/osc_modules/CrazyflieModule.py:59-60 | on the server, the state `OnConnectionFailedAt` gives |
| CrazyflieHandlers.OnDisconnectionOn | src/osc_modules/CrazyflieModule.py:62-64 | on the server, the state and exception `OnDisconnectionAt` gives |
| CrazyflieHandlers.GoalOn | src/osc_modules/CrazyflieModule.py:81-94 | on the server, the state and exception `GoalAt` gives |
| CrazyflieHandlers.RemoveDroneOn | src/osc_modules/CrazyflieModule.py:97-108 | on the server, the state and exception `RemoveDroneAt` gives |
| FanOut.FanStopsAtRaise | src/osc_modules/osc_validators.py:110-111 | once a target's `int()` has raised, no later target runs |
| FanOut.NodeFanStopsAtRaise | src/server_osc_modules/osc_validators.py:165-166 | the same for the loop over nodes |
| FanOut.AbortedSnoc | src/osc_modules/osc_validators.py:110-111 | the abort point of a longer target list is that of its prefix, or the new target |
| FanOut.FanRaisesIffAborted | src/osc_modules/osc_validators.py:110-115 | the loop raises exactly when some target does not convert, with that target's exception; the handler's exceptions never escape |
| FanOut.AsTargets | src/osc_modules/osc_validators.py:106-108 | one target per id, in order |
| FanOut.SetParamCalls | src/osc_modules/ParamModule.py:31-60 | at most one `set_value` call per id, each with the name `group.name` and the value as `str()` gives it |
| FanOut.StepCalls | src/osc_modules/ParamModule.py:31-60 | corrected (`param_exists`, Findings row 4): one call for an id exactly when it passes `param_exists` and `drone_connected` |
| FanOut.Handles | src/osc_modules/ParamModule.py:59 | the handle of each listed drone, in order |
| FanOut.SetCalls | src/osc_modules/ParamModule.py:59-60 | one `set_value(name, value)` call per handle, in order |
| FanOut.SetParamCallsAll | src/osc_modules/ParamModule.py:31-60 | corrected (`param_exists`, Findings row 4): when every id passes, there is one call per id, on that drone's handle, in order |
| FanOut.SetParamStep | src/osc_modules/ParamModule.py:31-60 | corrected (`param_exists`, Findings row 4): one target: raises nothing; either its call is made or one report is added |
| FanOut.ChainCalls | src/osc_modules/osc_validators.py:110-115 | two loop turns: the calls of both in order, and the reports of both after the old ones |
| FanOut.SetParamFan | src/osc_modules/ParamModule.py:31-60 | corrected (`param_exists`, Findings row 4): over a list of ids: each id that passes gets its call in order, every other adds exactly one report, nothing raises, nothing else changes |
| FanOut.SetParamFanStep | src/osc_modules/osc_validators.py:110-115 | the last id runs after the others, and its call or report comes after theirs |
| FanOut.SetParamFanLast | src/osc_modules/osc_validators.py:110-115 | the loop over a list is the loop over all but the last, then the last |
| FanOut.MultiDronesList | src/osc_modules/osc_validators.py:105-115 | a `;`-list of ids runs the handler on those ids, in the order written |
| FanOut.SetParamSelectorList | src/osc_modules/ParamModule.py:25-60 | with every listed drone passing, `/{drones}/{group}/{name}/set` sets the parameter on each, in the order written, and reports nothing |
| FanOut.SetParamStar | src/osc_modules/ParamModule.py:31-60 | corrected (`*` and `param_exists`, Findings rows 5 and 4): `*` sets the parameter on every connected drone, in registry order, and on no other |
| FanOut.NodeBodyNoPositions | src/server_osc_modules/osc_validators.py:46-55 | with no stored position, the body for one node only reports |
| FanOut.NodeFanNoPositions | src/server_osc_modules/osc_validators.py:156-174 | with no stored position, the loop over nodes only reports |
| FanOut.FanPushNoPositions | src/osc_modules/osc_validators.py:99-116 | with no stored position, the loop over drones only reports |
| FanOut.UpdateLpsPosNoPositions | src/osc_modules/CrazyflieModule.py:115-146 | while no node has a stored position, `osc_update_lps_pos` makes no call on any drone and changes only the reports, whatever the selectors |
| FanOut.AppendsTrans | src/osc_modules/osc_validators.py:110-115 | "only calls and reports were added" composes over loop turns |
| FanOut.CatchAppends | src/osc_modules/osc_validators.py:112-115 | catching an exception only adds a report |
| FanOut.SetParamAppends | src/osc_modules/ParamModule.py:31-60 | `osc_set_param` on one id only adds calls and reports |
| FanOut.FanSetParamAppends | src/osc_modules/osc_validators.py:110-115 | the loop of `osc_set_param` only adds calls and reports |
| FanOut.MultiDronesSetParamAppends | src/osc_modules/ParamModule.py:31-60 | `osc_set_param` under any selector only adds calls and reports |
| FanOut.PushPositionAppends | src/osc_modules/CrazyflieModule.py:137-146 | pushing one node's position only adds calls and reports |
| FanOut.NodeBodyAppends | src/osc_modules/CrazyflieModule.py:115-146 | the body for one drone and node only adds calls and reports |
| FanOut.NodeFanAppends | src/server_osc_modules/osc_validators.py:165-173 | the loop over nodes only adds calls and reports |
| FanOut.PushAnchorsAtAppends | src/server_osc_modules/osc_validators.py:156-174 | `multi_nodes` for one drone only adds calls and reports |
| FanOut.FanPushAppends | src/osc_modules/osc_validators.py:110-115 | the loop over drones of the anchor push only adds calls and reports |
| FanOut.UpdateLpsPosAppends | src/osc_modules/CrazyflieModule.py:115-146 | `osc_update_lps_pos` leaves the registry, the LPS table and the modules alone, whatever its selectors |
| FanOut.SetParamOne | src/osc_modules/ParamModule.py:31-60 | corrected (`param_exists`, Findings row 4): the selector `str(d)` for one drone that passes: exactly its one call |
| FanOut.AnchorNameSpelled | src/osc_modules/CrazyflieModule.py:139 | the parameter is `anchorpos.anchor{n}` followed by the axis |
| FanOut.NodeChecksPass | src/server_osc_modules/osc_validators.py:46-110 | a connected drone and a node below the count with a stored position pass both checks |
| FanOut.PushPositionOne | src/osc_modules/CrazyflieModule.py:137-146 | corrected (`param_exists`, Findings row 4): one drone named by `str(d)`: its three anchor calls, `x`, `y`, `z`, in order |
| FanOut.NodeBodyPushes | src/osc_modules/CrazyflieModule.py:119-146 | corrected (`param_exists`, Findings row 4): for a connected drone and a node with a stored position, the body makes exactly the three anchor calls |
| FanOut.NodeFanOne | src/server_osc_modules/osc_validators.py:165-173 | the loop over one node is that node's body, its exception caught |
| FanOut.BodyPushAnchors | src/osc_modules/CrazyflieModule.py:117-118 | the handler wrapped by `multi_drones` is `multi_nodes` for that drone |
| FanOut.PushAnchorsOneNode | src/server_osc_modules/osc_validators.py:156-169 | a node selector naming one node runs the loop over that node |
| FanOut.FanOne | src/osc_modules/osc_validators.py:110-115 | the loop over one drone is that drone's body, its exception caught |
| FanOut.UpdateLpsPosOneNode | src/osc_modules/CrazyflieModule.py:115-146 | corrected (`param_exists`, Findings row 4): one drone, one node with a stored position: `anchorpos.anchor{n}x`, `y`, `z` are set on that drone from the position's three components, and nothing else happens |
| FanOut.FanStep | src/osc_modules/osc_validators.py:110-115 | one more turn of the loop over drones |
| FanOut.NodeFanStep | src/server_osc_modules/osc_validators.py:165-173 | one more turn of the loop over nodes |
| FanOut.FanTurn | src/osc_modules/osc_validators.py:111-115 | a turn that calls the handler: its result, the exception reported |
| FanOut.NodeFanTurn | src/server_osc_modules/osc_validators.py:166-173 | the same for the loop over nodes |
| FanOut.CatchOn | src/osc_modules/osc_validators.py:112-115 | on the server, the state `Catch` gives |
| FanOut.RunMultiDrones | src/osc_modules/osc_validators.py:99-116 | on the server, the state and exception `MultiDrones` gives |
| FanOut.RunFan | src/osc_modules/osc_validators.py:110-115 | the loop on the server ends in the state and exception `Fan` gives |
| FanOut.RunBody | src/osc_modules/ParamModule.py:31-60 | on the server, the state and exception `Body` gives |
| FanOut.RunPushAnchors | src/server_osc_modules/osc_validators.py:156-174 | on the server, the state and exception `PushAnchorsAt` gives |
| FanOut.RunNodeFan | src/server_osc_modules/osc_validators.py:165-173 | the loop on the server ends in the state and exception `NodeFan` gives |
| FanOut.RunNodeBody | src/osc_modules/CrazyflieModule.py:119-146 | on the server, the state and exception `NodeBody` gives |
| FanOut.RunPushPosition | src/osc_modules/CrazyflieModule.py:137-146 | on the server, the state and exception `PushPosition` gives |
| FanOut.RunUpdateLpsPos | src/osc_modules/CrazyflieModule.py:115-146 | on the server, the state and exception `UpdateLpsPos` gives |
| FanOut.MultiDrones | src/osc_modules/osc_validators.py:99-116 | corrected (`*` and `str()` of the selector, Findings row 5): without the CRAZYFLIE module one report and nothing else; an exception that escapes is the `ValueError` of an `int()` outside the `try` |
| FanOut.Fan | src/osc_modules/osc_validators.py:110-115 | the loop raises exactly the exception of the first target whose `int()` fails, and nothing otherwise |
| FanOut.Body | src/osc_modules/osc_validators.py:113 | only the anchor push can raise, and only `ValueError`; any other handler on a drone that is not connected adds one report and nothing else |
| FanOut.Handler | src/osc_modules/osc_validators.py:113 | the decorated handlers other than the anchor push never raise; those other than `osc_log_add_variable` and `osc_log_start` add one report for a drone that is not connected |
| FanOut.PushAnchorsAt | src/server_osc_modules/osc_validators.py:156-174 | without the LPS module one report and nothing else; an exception that escapes is a `ValueError` |
| FanOut.NodeFan | src/server_osc_modules/osc_validators.py:168-173 | the loop over nodes raises exactly the exception of the first node whose `int()` fails |
| FanOut.NodeBody | src/osc_modules/CrazyflieModule.py:115-146 | a drone that is not connected adds one report and nothing else |
| FanOut.PushPosition | src/osc_modules/CrazyflieModule.py:137-146 | without the CRAZYFLIE module each of the three `osc_set_param` calls adds one report, three in all, and nothing raises; an exception that escapes is a `ValueError` |
| FanOut.UpdateLpsPos | src/osc_modules/CrazyflieModule.py:115-118 | without the LPS or PARAM module one report and nothing else; an exception that escapes is a `ValueError` |
| LpsFanOut.UpdateLpsPosLists | src/osc_modules/CrazyflieModule.py:115-146 | corrected (`param_exists`, Findings row 4): for a `;`-list of `k` connected drones and a `;`-list of nodes with stored positions whose anchor parameters every drone has, the exact calls made: for each of the `k` outer turns, each node in order, its `x` on every listed drone, then `y`, then `z`; so every drone receives every anchor coordinate `k` times, and nothing is reported or raised |
| LpsFanOut.OuterFan | src/osc_modules/osc_validators.py:110-115 | the outer loop over connected drones adds one copy of the nodes' calls per turn |
| LpsFanOut.OuterFanStep | src/osc_modules/osc_validators.py:110-115 | the last drone of the outer loop adds one more copy after the turns before it |
| LpsFanOut.NodeFanList | src/server_osc_modules/osc_validators.py:168-173 | corrected (`param_exists`, Findings row 4): the loop over a list of ready nodes for one connected drone pushes each node in turn and raises nothing |
| LpsFanOut.NodeFanListStep | src/server_osc_modules/osc_validators.py:168-173 | the last node of the list is pushed after the nodes before it |
| LpsFanOut.NodeBodyList | src/osc_modules/CrazyflieModule.py:119-146 | corrected (`param_exists`, Findings row 4): a connected drone and a ready node pass both checks, and the node's stored position goes to every drone of the list |
| LpsFanOut.PushPositionList | src/osc_modules/CrazyflieModule.py:137-146 | corrected (`param_exists`, Findings row 4): the three `osc_set_param` calls with the whole drone list: every listed drone gets `x`, then every one gets `y`, then `z` |
| LpsFanOut.AxisList | src/osc_modules/ParamModule.py:31-60 | corrected (`param_exists`, Findings row 4): one coordinate set through a `;`-list on which every drone has the parameter: one call per drone, in order |
| LpsFanOut.PushAnchorsList | src/server_osc_modules/osc_validators.py:156-169 | a `;`-list node selector runs the loop over exactly those nodes, in order |
| LpsFanOut.ListTargets | src/server_osc_modules/osc_validators.py:160-166 | a `;`-list of ids is not `*` and names exactly those ids, in order |
| ParamHandlers.SetParamAt | src/osc_modules/ParamModule.py:31-60 | corrected (`param_exists`, Findings row 4): one target raises nothing: a drone that passes `param_exists` and `drone_connected` gets exactly one `set_value(group.name, str(value))` on its handle, any other adds exactly one report |
| ParamHandlers.SendTocVariableAt | src/osc_modules/ParamModule.py:70-91 | corrected (`_send`, Findings row 12): nothing raises; behind `drone_connected` (a refusal is one report); a group the table lacks sends nothing and changes nothing |
| ParamHandlers.SendTocVariablePublishes | src/osc_modules/ParamModule.py:63-91 | corrected (`_send`, Findings row 12): an existing group publishes its names, sorted, under `/<id>/toc/<group>`, and nothing else |
| ParamHandlers.TableTopic | src/osc_modules/ParamModule.py:113 | the topic `/<id>/toc` splits on `/` into an empty head, the id's digits and `toc` |
| ParamHandlers.TocTopic | src/osc_modules/ParamModule.py:91 | the topic `/<id>/toc/<group>` splits on `/` into an empty head, the id's digits, `toc` and the group, for a group without `/` |
| ParamHandlers.SendTocAt | src/osc_modules/ParamModule.py:94-113 | corrected (`_send`, Findings row 13): nothing raises; behind `drone_connected`: the whole table, each group's names sorted, is published as JSON under `/<id>/toc` |
| ParamHandlers.GetAllValuesAt | src/osc_modules/ParamModule.py:116-130 | behind `drone_connected`: exactly one request to refresh every parameter of that drone |
| ParamHandlers.ParamCallbacks | src/osc_modules/ParamModule.py:136-139 | one update callback per group, in order, each bound to the drone's id |
| ParamHandlers.AddParamCb | src/osc_modules/ParamModule.py:133-139 | a connected record gets one callback per group of its table, in order, after the calls made before; an absent or unconnected record, nothing; nothing but calls changes |
| ParamHandlers.OnParamUpdate | src/osc_modules/ParamModule.py:142-148 | corrected (`_send`, Findings row 14): the callback raises `ValueError` exactly when the name does not split on `.` into two parts; otherwise it publishes the value once and changes nothing else |
| ParamHandlers.ParamUpdateTopic | src/osc_modules/ParamModule.py:145-147 | corrected (`_send`, Findings row 14): a name with one dot is published under `<drone>/<group>/<name>` |
| ParamHandlers.ParamUpdateExtraDot | src/osc_modules/ParamModule.py:145 | a name with a second dot raises and publishes nothing |
| ParamHandlers.SetThenUpdateTopic | src/osc_modules/ParamModule.py:59-148 | corrected (`_send`, Findings row 14): the names `set_value` builds come back through the update callback as the group and name they were made from |
| ParamHandlers.SendTocVariableAsWritten | src/osc_modules/ParamModule.py:86-91 | as written: publishes nothing ever; it raises `AttributeError`, changing nothing, exactly when the drone is connected and the group is in its parameter table |
| ParamHandlers.SendTocAsWritten | src/osc_modules/ParamModule.py:107-113 | as written: publishes nothing ever; it raises `AttributeError`, changing nothing, exactly when the drone is connected |
| ParamHandlers.OnParamUpdateAsWritten | src/osc_modules/ParamModule.py:142-148 | as written: the callback always raises and changes nothing: `AttributeError` exactly when the name splits on `.` into two parts, `ValueError` otherwise |
| ParamHandlers.SendTocVariableParamAsWritten | src/osc_modules/ParamModule.py:86-91 | for a connected drone and a group of its table, the handler as written raises `AttributeError` and changes nothing, where the corrected one raises nothing and publishes |
| ParamHandlers.SendTocAsWrittenRaises | src/osc_modules/ParamModule.py:107-113 | for a connected drone, as written `AttributeError` and no change, corrected one publication; for any other drone both give the same refusal |
| ParamHandlers.ParamUpdateAsWrittenRaises | src/osc_modules/ParamModule.py:142-148 | for a name `set_value` builds from dot-free parts, the callback as written raises `AttributeError` and publishes nothing, where the corrected one publishes the value under `<drone>/<group>/<name>` |
| ParamHandlers.SetParamOn | src/osc_modules/ParamModule.py:31-60 | on the server, the state and exception `SetParamAt` gives |
| ParamHandlers.SendTocVariableOn | src/osc_modules/ParamModule.py:70-91 | corrected (`_send`, Findings row 12): on the server, the state and exception `SendTocVariableAt` gives |
| ParamHandlers.SendTocOn | src/osc_modules/ParamModule.py:94-113 | corrected (`_send`, Findings row 13): on the server, the state and exception `SendTocAt` gives |
| ParamHandlers.GetAllValuesOn | src/osc_modules/ParamModule.py:116-130 | on the server, the state and exception `GetAllValuesAt` gives |
| ParamHandlers.AddParamCbOn | src/osc_modules/ParamModule.py:133-139 | the loop over the groups leaves the state `AddParamCb` gives |
| ParamHandlers.OnParamUpdateOn | src/osc_modules/ParamModule.py:142-148 | corrected (`_send`, Findings row 14): on the server, the state and exception `OnParamUpdate` gives |
| LogHandlers.AddLogAt | src/osc_modules/LogModule.py:29-53 | behind `drone_connected` (a refusal is one report): a new `LogConfig` is stored under `log_name` as received, the `logs` dict made on first use and an old log of that name replaced; nothing is called on the drone |
| LogHandlers.AddLogThenExists | src/osc_modules/LogModule.py:29-57 | after adding a log under a string name, `log_exists` finds it, the registry keeps its keys and every other log of the record is kept |
| LogHandlers.LogAt | src/osc_modules/LogModule.py:75-77 | once `log_exists` passed, `logs[str(log_name)]` is there |
| LogHandlers.LogAddVariableAt | src/osc_modules/LogModule.py:56-77 | behind `log_exists`: exactly one `add_variable` call on the stored configuration; no started check |
| LogHandlers.LogStartAt | src/osc_modules/LogModule.py:80-102 | behind `log_exists`: the configuration is added to the drone, both callbacks set and the log started; the registry is not changed |
| LogHandlers.StartTwice | src/osc_modules/LogModule.py:80-102 | a second start is not refused: the same four calls are made again |
| LogHandlers.OneEntryTocs | src/osc_modules/LogModule.py:120 | one single-entry table per group, in order, with the group's names sorted |
| LogHandlers.OneEntryTocsFlatten | src/osc_modules/LogModule.py:120 | put together, those tables are the sorted table `ParamModule._get_toc` builds |
| LogHandlers.PrintedTocs | src/osc_modules/LogModule.py:123-124 | one printed line per table, in order |
| LogHandlers.LogSendTocAt | src/osc_modules/LogModule.py:105-124 | behind `drone_connected`: `TOC` is printed, then one line per group |
| LogHandlers.LogSendTocPrintsOnly | src/osc_modules/LogModule.py:105-124 | this `osc_send_toc` publishes nothing: every call it adds is a printed line |
| LogHandlers.AddLogOn | src/osc_modules/LogModule.py:29-53 | on the server, the state and exception `AddLogAt` gives |
| LogHandlers.LogAddVariableOn | src/osc_modules/LogModule.py:56-77 | on the server, the state and exception `LogAddVariableAt` gives |
| LogHandlers.LogStartOn | src/osc_modules/LogModule.py:80-102 | on the server, the state and exception `LogStartAt` gives |
| LogHandlers.LogSendTocOn | src/osc_modules/LogModule.py:105-124 | on the server, the state and exception `LogSendTocAt` gives |
| LogHandlers.PrintTocs | src/osc_modules/LogModule.py:123-124 | the print loop adds exactly one line per table, in order |
| ServerLogHandlers.ServerAddLogAt | src/server_osc_modules/LogModule.py:71-104 | behind `drone_connected`: a period that is not an integer raises `ValueError`; a name already in `logs` is reported and nothing else changes; otherwise a fresh `Logger` over a new `LogConfig(name, period)` is stored, the `logs` dict made on first use |
| ServerLogHandlers.NewServerLog | src/server_osc_modules/LogModule.py:94-103 | nothing raises, and the state is the duplicate report exactly when the name is already among the drone's logs |
| ServerLogHandlers.LoggerAt | src/server_osc_modules/LogModule.py:133-154 | once `log_exists` passed, the stored entry is a `Logger` |
| ServerLogHandlers.ServerAddVariableAt | src/server_osc_modules/LogModule.py:107-134 | behind `log_exists` and `log_not_started` (a refusal is one report): the variable is appended to the logger's list and added to its configuration, one call |
| ServerLogHandlers.ServerLogStartAt | src/server_osc_modules/LogModule.py:137-162 | behind `log_exists` and `log_not_started`: the configuration is added to the drone, data and error callbacks set, the log started and the logger marked started |
| ServerLogHandlers.StartedLogFrozen | src/server_osc_modules/LogModule.py:107-162 | after a start, both adding a variable and starting again are refused with one `already started` report and change nothing else |
| ServerLogHandlers.AddVariableKeepsOrder | src/server_osc_modules/LogModule.py:15-134 | two variables added one after the other end up in the logger's list in that order, and the log stays unstarted |
| ServerLogHandlers.StillNotStarted | src/server_osc_modules/LogModule.py:107-134 | adding a variable keeps the log unstarted and changes its logger only by that variable |
| ServerLogHandlers.ServerSendTocVariableAsWritten | src/server_osc_modules/LogModule.py:171-190 | as written: for a connected drone, the handler raises exactly when the group is in the TOC (`'/'.join` of an int), and publishes nothing |
| ServerLogHandlers.SendTocVariableAsWrittenRaises | src/server_osc_modules/LogModule.py:189-190 | for a group that is in the TOC, the as-written handler raises `TypeError`, where the corrected one publishes the sorted names |
| ServerLogHandlers.ServerSendTocVariableAt | src/server_osc_modules/LogModule.py:171-190 | corrected (Findings row 3): nothing raises; a drone that fails `drone_connected` adds one report; a group not in the TOC changes nothing (the publish case, each name sorted, is stated by `SendTocVariableAsWrittenRaises`) |
| ServerLogHandlers.ServerSendTocAt | src/server_osc_modules/LogModule.py:193-212 | behind `drone_connected`: two calls are added and nothing else changes; the second publishes the TOC, each group's names sorted, as JSON under `/<id>/toc`, with exactly the drone's groups |
| ServerLogHandlers.Lookup | src/server_osc_modules/LogModule.py:229 | `log_content[var]` finds a value exactly when some received item has that name, and the value is that item's |
| ServerLogHandlers.ValuesOf | src/server_osc_modules/LogModule.py:229 | the list comprehension succeeds exactly when every logger variable was received, and then holds each one's value in the logger's order |
| ServerLogHandlers.VariableSends | src/server_osc_modules/LogModule.py:221-223 | one publication per received item, in order, under `<id>/<log>/<variable>` |
| ServerLogHandlers.OnLogReceivedAt | src/server_osc_modules/LogModule.py:214-231 | the callback publishes every received item, then raises `KeyError` exactly when a logger variable is missing; otherwise it publishes the values in the logger's order under `<id>/<log>`; nothing else changes |
| ServerLogHandlers.PublishedInLoggerOrder | src/server_osc_modules/LogModule.py:228-229 | when every variable was received, the last publication holds one value per logger variable, each the received value of that name |
| ServerLogHandlers.ServerAddLogOn | src/server_osc_modules/LogModule.py:71-104 | on the server, the state and exception `ServerAddLogAt` gives |
| ServerLogHandlers.NewServerLogOn | src/server_osc_modules/LogModule.py:94-103 | on the server, the state and exception `NewServerLog` gives |
| ServerLogHandlers.ServerAddVariableOn | src/server_osc_modules/LogModule.py:107-134 | on the server, the state and exception `ServerAddVariableAt` gives |
| ServerLogHandlers.ServerLogStartOn | src/server_osc_modules/LogModule.py:137-162 | on the server, the state and exception `ServerLogStartAt` gives |
| ServerLogHandlers.ServerSendTocVariableOn | src/server_osc_modules/LogModule.py:171-190 | on the server, the state and exception `ServerSendTocVariableAt` gives |
| ServerLogHandlers.ServerSendTocOn | src/server_osc_modules/LogModule.py:193-212 | on the server, the state and exception `ServerSendTocAt` gives |
| ServerLogHandlers.OnLogReceivedOn | src/server_osc_modules/LogModule.py:214-231 | the callback's loop leaves the state and exception `OnLogReceivedAt` gives |
| Loggers.NewLogger | src/server_osc_modules/LogModule.py:10-13 | a new logger holds the configuration, no variables, not started |
| Loggers.AsLogger | src/server_osc_modules/LogModule.py:8-13 | a stored logger reads as itself; a bare configuration as an unstarted logger with no variables |
| Loggers.WithVariable | src/server_osc_modules/LogModule.py:15-17 | `add_variable` appends the name and keeps the configuration and the started flag |
| Loggers.StartedLogger | src/server_osc_modules/LogModule.py:25-27 | `start` sets the flag and keeps the configuration and the variables |
| Loggers.VariablesInOrder | src/server_osc_modules/LogModule.py:15-17 | any number of variables added one after the other are the logger's variables, in the order added |
| Loggers.Logger.constructor | src/server_osc_modules/LogModule.py:10-13 | the logger object's state is `NewLogger` of its configuration |
| Loggers.Logger.AddVariable | src/server_osc_modules/LogModule.py:15-17 | the object's state becomes `WithVariable` of its old state, and the configuration gets one `add_variable` call |
| Loggers.Logger.AddDataReceivedCallback | src/server_osc_modules/LogModule.py:19-20 | one data callback is registered on the logger's own configuration |
| Loggers.Logger.AddErrorCallback | src/server_osc_modules/LogModule.py:22-23 | one error callback is registered on the logger's own configuration |
| Loggers.Logger.Start | src/server_osc_modules/LogModule.py:25-27 | the object's state becomes `StartedLogger` of its old state, and the configuration is started once |
| LpsHandlers.SetNodeNumberAt | src/osc_modules/LpsModule.py:26-34 | a number that is not an integer raises `ValueError` and changes nothing; otherwise the server's node number becomes it and nothing else changes |
| LpsHandlers.NodeNumberGovernsNodes | src/osc_modules/LpsModule.py:26-34 | corrected (the out-of-range report, Findings row 1): after setting the number to `n`, `lps_node_exists` passes exactly the nodes below `n` and reports every other one |
| LpsHandlers.FirstConnected | src/osc_modules/LpsModule.py:37-55 | `one_drone_is_connected` passes exactly when some drone is connected, and `drones[0]` is then the first connected record, in registration order |
| LpsHandlers.AnchorCommand | src/osc_modules/LpsModule.py:37-76 | the connected-drone check runs first, then the node check; a refusal is reported and nothing else changes; when both pass, exactly one anchor command goes through the first connected drone's radio |
| LpsHandlers.SetNodePositionAt | src/osc_modules/LpsModule.py:37-56 | corrected (the out-of-range report, Findings row 1): with LPS and a connected drone, a node below the count gets one `set_position(node, (x, y, z))` through the first connected drone, a node at or past it one "Bad node_id" report, a node that is not an integer `ValueError`; nothing is stored |
| LpsHandlers.RebootAt | src/osc_modules/LpsModule.py:58-76 | corrected (the out-of-range report, Findings row 1): the same node outcomes, with one `reboot(node, mode)`, into the bootloader exactly when the flag was given and is truthy |
| LpsHandlers.SetNodePositionSends | src/osc_modules/LpsModule.py:37-56 | for a node in range and a connected drone, the position is sent once, to that node, through the first connected drone |
| LpsHandlers.NoDroneReportedFirst | src/osc_modules/LpsModule.py:37-38 | with no drone connected, the command is refused with `no drone connected` whatever the node |
| LpsHandlers.RebootMode | src/osc_modules/LpsModule.py:58-76 | the anchor reboots into the bootloader exactly when the flag was given and is truthy; without the flag, into the firmware |
| LpsHandlers.OutOfRangeNodeAsWritten | src/osc_modules/osc_validators.py:29-37 | as written, a node out of range makes the node check itself raise `TypeError`; the corrected check reports it and changes nothing else |
| LpsHandlers.SetNodeNumberOn | src/osc_modules/LpsModule.py:26-34 | on the server, the state and exception `SetNodeNumberAt` gives |
| LpsHandlers.AnchorCommandOn | src/osc_modules/LpsModule.py:37-76 | on the server, the state and exception `AnchorCommand` gives |
| LpsHandlers.SetNodePositionOn | src/osc_modules/LpsModule.py:37-56 | on the server, the state and exception of `AnchorCommand` for a position |
| LpsHandlers.RebootOn | src/osc_modules/LpsModule.py:58-76 | on the server, the state and exception of `AnchorCommand` for a reboot |
| LegacyLps.LegacySetNodePositionAsWritten | src/osc_modules/Lps.py:32-53 | as written: an index at or past the node count raises `TypeError` and changes nothing; an index in range behaves as the corrected handler |
| LegacyLps.LegacySetNodePositionAt | src/osc_modules/Lps.py:32-53 | corrected: a malformed index raises `ValueError`; one at or past the node count is reported as a bad node and nothing else changes |
| LegacyLps.CheckedNode | src/osc_modules/Lps.py:43-53 | the node-count test comes first: an index past it is reported, one below it goes on to the drone checks |
| LegacyLps.InRangeNode | src/osc_modules/Lps.py:44-50 | without a CRAZYFLIE module `AttributeError`; with no connected drone one report; otherwise exactly one `set_position` through the first connected drone |
| LegacyLps.LegacyBadNodeRaises | src/osc_modules/Lps.py:52-53 | the as-written and corrected handlers differ exactly on a well-formed index at or past the node count |
| LegacyLps.LegacyCheckOrder | src/osc_modules/Lps.py:43-53 | with no drone connected, this handler reports the bad node where `LpsModule` reports the missing drone; for a node in range the two agree |
| LegacyLps.LegacyAgreesWhenConnected | src/osc_modules/Lps.py:32-53 | with a drone connected, this handler and `LpsModule.osc_set_node_position` leave the same state |
| LegacyLps.LegacySetNodePositionOn | src/osc_modules/Lps.py:32-53 | on the server, the state and exception `LegacySetNodePositionAt` gives |
| LegacyLps.CheckedNodeOn | src/osc_modules/Lps.py:43-53 | on the server, the state and exception `CheckedNode` gives |
| LegacyLps.InRangeNodeOn | src/osc_modules/Lps.py:44-50 | on the server, the state and exception `InRangeNode` gives |
| LegacyCrazyflie.LegacyAdmit | src/osc_modules/Crazyflie.py:33-61 | the drone is registered under its raw path string; a new one gets a fresh `Crazyflie`, is unconnected and is appended to the registration order; a known one is left as it is |
| LegacyCrazyflie.LegacyAddDroneAt | src/osc_modules/Crazyflie.py:26-66 | afterwards the drone is registered and the modules are unchanged |
| LegacyCrazyflie.LegacyAddNewDrone | src/osc_modules/Crazyflie.py:35-64 | a new drone: one record, the three callbacks registered, then `open_link` on its URL, and nothing reported |
| LegacyCrazyflie.LegacyAddKnownDrone | src/osc_modules/Crazyflie.py:63-66 | a known unconnected drone is only asked to open its link again; a known connected one is reported and nothing else changes |
| LegacyCrazyflie.LegacyAddDroneIndexed | src/osc_modules/Crazyflie.py:26-66 | adding keeps the registration order and the dict's keys the same set, without repeats |
| LegacyCrazyflie.LegacyKeysAreRaw | src/osc_modules/Crazyflie.py:33-38 | `1` and `01` are two drones with two radios here, where `CrazyflieModule` keys both as the int 1 and makes one |
| LegacyCrazyflie.LegacyOnConnectionAt | src/osc_modules/Crazyflie.py:45-49 | a drone deleted since raises `KeyError`; otherwise it is marked connected and `flightmode.posSet` is set to `1`, and nothing else changes |
| LegacyCrazyflie.LegacyConnectThenDisconnect | src/osc_modules/Crazyflie.py:45-56 | after connecting the drone is among the connected ones; after the disconnection callback it is not, and only its flag differs from before |
| LegacyCrazyflie.LegacyGoalAt | src/osc_modules/Crazyflie.py:68-78 | a registered drone gets one setpoint with `x` and `y` swapped and `yaw` before `z`; an unknown one is ignored without a report |
| LegacyCrazyflie.LegacyRemoveDroneAt | src/osc_modules/Crazyflie.py:80-93 | afterwards the drone is gone; an unknown one is reported; a known one is closed if connected and every other drone is kept |
| LegacyCrazyflie.LegacyRemoveDroneIndexed | src/osc_modules/Crazyflie.py:80-93 | removing keeps the registration order and the dict's keys the same set |
| LegacyCrazyflie.LegacyAddThenRemove | src/osc_modules/Crazyflie.py:26-93 | adding a new drone and removing it again gives back the registry and the reports, with only the calls of the add left |
| LegacyCrazyflie.LegacyAddDroneOn | src/osc_modules/Crazyflie.py:26-66 | on the server, the state `LegacyAddDroneAt` gives |
| LegacyCrazyflie.LegacyOnConnectionOn | src/osc_modules/Crazyflie.py:45-49 | on the server, the state and exception `LegacyOnConnectionAt` gives |
| LegacyCrazyflie.LegacyGoalOn | src/osc_modules/Crazyflie.py:68-78 | on the server, the state `LegacyGoalAt` gives |
| LegacyCrazyflie.LegacyRemoveDroneOn | src/osc_modules/Crazyflie.py:80-93 | on the server, the state `LegacyRemoveDroneAt` gives |
| ClientHandlers.AddClientAsWritten | src/osc_modules/ClientModule.py:22-35 | as written: the client table never changes, and the handler returns normally exactly when both arguments are strings and the pair is already a client |
| ClientHandlers.AddClientAt | src/osc_modules/ClientModule.py:22-35 | corrected: `TypeError` exactly when `ip + ':' + port` cannot be built; otherwise the pair is a client afterwards, no other client changes, and a new pair gets a fresh UDP client |
| ClientHandlers.RemoveClientAt | src/osc_modules/ClientModule.py:37-50 | `TypeError` exactly when the debug string cannot be built; otherwise the pair is no longer a client and nothing else changes |
| ClientHandlers.AddClientNeverAddsAsWritten | src/osc_modules/ClientModule.py:31-32 | as written, a new pair of strings raises `NameError` (`udp_client` is never imported) and is not added, where the corrected handler adds it |
| ClientHandlers.AddClientIdempotent | src/osc_modules/ClientModule.py:22-35 | adding the same client twice leaves what adding it once does |
| ClientHandlers.AddThenRemoveClient | src/osc_modules/ClientModule.py:22-50 | adding a new client and removing it gives back the state before |
| ClientHandlers.RemoveThenAddClient | src/osc_modules/ClientModule.py:22-50 | removing a client and adding it again gives back the table with a fresh UDP client for that pair |
| ClientHandlers.AddClientOn | src/osc_modules/Client.py:18-24 | on the server, the state and exception `AddClientAt` gives |
| ClientHandlers.RemoveClientOn | src/osc_modules/Client.py:26-32 | on the server, the state and exception `RemoveClientAt` gives |
| FleetServer.Server.constructor | src/server.py:23-36 | no module and no transport; an empty registry and client table; eight LPS nodes, none with a position |
| FleetServer.Server.GetModule | src/server.py:39-40 | the module registered under the name exactly when there is one, `None` otherwise; with the class invariant, exactly the names in the dict's order |
| FleetServer.Server.BuildRoutes | src/server.py:43-75 | corrected (constructors, Findings row 10): keeps the class invariant; the six modules of the table are created fresh, keyed by name in the dict's order, each distinct and each holding exactly the routes of its sub-topics under its base; the registry and everything else is kept |
| FleetServer.Server.Listen | src/server.py:78-85 | the transport is started once, the class invariant is kept and nothing else changes |
| FleetServer.Server.Stop | src/server.py:91-96 | corrected (`stop`, Findings row 11): without a transport nothing happens; otherwise each module is stopped once, in the dict's order, then the transport is shut down; the calls added stop exactly the registered modules; the class invariant is kept and nothing else changes |
| FleetServer.Server.StopAsWritten | src/server.py:91-96 | as written: without a transport nothing happens; with one and at least one module, the first `module.stop()` raises `AttributeError`, no module is stopped and the transport is not shut down; with no module the transport is shut down |
| FleetServer.StopAfterBuildAsWritten | src/server.py:91-96 | a server whose routes are built and whose transport is up: `stop` as written raises `AttributeError` and the transport is never shut down |
| FleetServer.BuildOutcome | src/server.py:55-69 | as written, the dict display raises `TypeError` exactly when some module's `__init__` hands on a keyword `OscModule.__init__` does not declare, and otherwise raises nothing |
| FleetServer.BuildRoutesRaisesAsWritten | src/server.py:55-69 | as written, the first entry, `ServerModule`, already hands on `server=`, so `build_routes` raises `TypeError` |
| FleetServer.StopCallsCover | src/server.py:94-95 | the stop calls added name exactly the listed modules |
| FleetServer.Server.Decline | src/osc_modules/osc_validators.py:5-23 | a validator's refusal: a report is appended and nothing raised, or its exception is raised and nothing changes |
| FleetServer.NewModules | src/server.py:55-69 | corrected (constructors, Findings row 10): six distinct fresh modules, each on its table entry's base topic, with no dispatcher and no routes |
| FleetServer.Dict | src/server.py:55-72 | a dict display with distinct keys maps each listed name to its object and has no other key |
| FleetServer.ModuleOrderIsTable | src/server.py:55-69 | the dict's order is the names of the table, `SERVER`, `CLIENT`, `CRAZYFLIE`, `LPS`, `LOG`, `PARAM` |
| FleetServer.AttachAll | src/server.py:74-75 | attaching each module to the dispatcher gives each exactly the routes of its table entry |
| FleetServer.StopCalls | src/server.py:94-95 | one `stop` call per module name, in order |
| FleetServer.StopCallsAppend | src/server.py:94-95 | one more module adds exactly its `stop` call at the end |
| RouteTables.FleetTableWellFormed | src/server.py:55-69 | the table has six modules with distinct names, each base topic already without a trailing `/` and each sub-topic non-empty |
| RouteTables.SpecNames | src/server.py:55-69 | the table's names, one per entry, in order |
| RouteTables.LeadingAll | src/osc_modules/OscModule.py:24-27 | every non-empty sub-topic of a list can be registered |
| RouteTables.GoalRouteCarriesId | src/osc_modules/CrazyflieModule.py:24-94 | the goal route is dispatched on `/crazyflie/*/goal`, and an address carrying an id's digits hands back that id |
| RouteTables.GoalRouteBinds | src/osc_modules/CrazyflieModule.py:24 | the goal route binds `drone_id` to whatever single line stands between `/crazyflie/` and `/goal` |
| RouteTables.LegacyRemoveRoute | src/osc_modules/Crazyflie.py:23 | the older module has no `remove` route: removal is dispatched on `/crazyflie/*/remode` |
| ServerFanOut.EarlyFan | src/server_osc_modules/osc_validators.py:145-150 | as written: an unconvertible first target raises out of the loop, and a first target whose handler returns ends the loop with that handler's result |
| ServerFanOut.ServerBody | src/server_osc_modules/osc_validators.py:148 | only `osc_add_log` can raise, and only `ValueError`; `osc_add_log` and the two TOC handlers add one report for a drone that is not connected |
| ServerFanOut.ServerMultiDronesAsWritten | src/server_osc_modules/osc_validators.py:133-151 | as written: without the CRAZYFLIE module one report and nothing else |
| ServerFanOut.ServerMultiDrones | src/server_osc_modules/osc_validators.py:133-151 | corrected (every target, Findings row 6): without the CRAZYFLIE module one report and nothing else |
| ServerFanOut.ServerFan | src/server_osc_modules/osc_validators.py:145-150 | corrected loop: with no target nothing changes, and an exception that leaves the loop is always an unconvertible target's |
| ServerFanOut.ServerFanStep | src/server_osc_modules/osc_validators.py:145-150 | each turn runs the handler for the next target and reports an exception it raises, unless the target cannot be converted |
| ServerFanOut.OneIdSelector | src/server_osc_modules/osc_validators.py:136-148 | a selector that is one drone id gives that one target, and both versions of the decorator then run the handler once for it |
| ServerFanOut.StarPlanOfTwo | src/server_osc_modules/osc_validators.py:137-139 | `*` expands to the registry's keys in their order |
| ServerFanOut.ServerFanOfTwo | src/server_osc_modules/osc_validators.py:145-150 | the corrected loop over two targets runs the handler for the first and then for the second on the result |
| ServerFanOut.StarReachesOnlyFirstAsWritten | src/server_osc_modules/osc_validators.py:145-148 | with two connected drones, `*` adds the log to the first drone only as written, and to both when the handler runs for every target |
| ServerFanOut.BodyAddLog | src/server_osc_modules/LogModule.py:71-104 | on a connected drone, a new log name gets a fresh unstarted logger and nothing else changes |
| ServerFanOut.BodyAddVariable | src/server_osc_modules/LogModule.py:107-134 | on a connected drone, an unstarted log gets the variable at the end of its list and one `add_variable` call |
| ServerFanOut.BodyStart | src/server_osc_modules/LogModule.py:137-162 | on a connected drone, an unstarted log is started with its four calls |
| ServerFanOut.State | src/server_osc_modules/LogModule.py:94-103 | a drone's logs, the object counter and the calls replaced; its radio, the registry order and the reports kept |
| ServerFanOut.AndThen | src/server_osc_modules/LogModule.py:233-259 | once a call of `add_default_loggers` has raised, the calls after it do not run |
| ServerFanOut.ChainStep | src/server_osc_modules/LogModule.py:233-259 | the calls of `add_default_loggers` run one after the other, each on the state the one before left |
| ServerFanOut.Chain | src/server_osc_modules/LogModule.py:233-259 | without the CRAZYFLIE module each call of `add_default_loggers` adds one report, one per call, and nothing raises |
| ServerFanOut.DefaultCallsAre | src/server_osc_modules/LogModule.py:237-259 | the eight calls: add `position` every 200 ms, its three Kalman variables, start it; add `battery` every 1000 ms, its voltage variable, start it |
| ServerFanOut.DefaultLoggersAt | src/server_osc_modules/LogModule.py:233-234 | a drone id that is not an integer raises `ValueError` and changes nothing |
| ServerFanOut.PositionSetUp | src/server_osc_modules/LogModule.py:237-250 | the first five calls leave a started `position` log with `kalman.stateX`, `kalman.stateY`, `kalman.stateZ` in that order, and make its calls |
| ServerFanOut.BatterySetUp | src/server_osc_modules/LogModule.py:252-259 | the last three calls leave a started `battery` log with `pm.vbat` and make its calls |
| ServerFanOut.DefaultLoggersSetUp | src/server_osc_modules/LogModule.py:233-259 | on a connected drone without those logs, both are set up and started, position first, and nothing is reported |
| ServerFanOut.ServerFanStopsAtRaise | src/server_osc_modules/osc_validators.py:145-146 | once a target could not be converted, the targets after it are not reached |
| ServerFanOut.RunServerBody | src/server_osc_modules/osc_validators.py:148 | on the server, the state and exception of the decorated handler for one id |
| ServerFanOut.RunServerFan | src/server_osc_modules/osc_validators.py:145-150 | the loop over the targets leaves the state and exception `ServerFan` gives |
| ServerFanOut.RunServerMultiDrones | src/server_osc_modules/osc_validators.py:133-151 | on the server, the state and exception of `multi_drones`, with the handler run for every target |
| ServerFanOut.AndThenOn | src/server_osc_modules/LogModule.py:233-259 | on the server, the state and exception `AndThen` gives |
| ServerFanOut.ChainCallOn | src/server_osc_modules/LogModule.py:233-259 | one more call of `add_default_loggers` on the server, as `Chain` gives |
| ServerFanOut.AddDefaultLoggersOn | src/server_osc_modules/LogModule.py:233-259 | on the server, the state and exception `DefaultLoggersAt` gives |
| ServerFanOut.PositionLoggerOn | src/server_osc_modules/LogModule.py:237-250 | on the server, the state the first five calls give |
| ServerFanOut.BatteryLoggerOn | src/server_osc_modules/LogModule.py:252-259 | on the server, the state all eight calls give |
| InnerServing.Server.constructor | src/inner_server.py:25-38 | no module, no transport, not running; an empty registry and client table; eight LPS nodes, none with a position; no calls |
| InnerServing.Server.GetModule | src/inner_server.py:41-42 | the module registered under the name exactly when there is one, `None` otherwise; with the class invariant, exactly the names in the dict's order |
| InnerServing.Server.Run | src/inner_server.py:76-87 | the part before the wait: the server is marked running, the transport is started on `(ip, port)`, then every module is started once, in the dict's order, the calls added starting exactly the registered modules; the class invariant and the shared state are kept |
| InnerServing.Server.Stop | src/inner_server.py:96-102 | the running flag is cleared; without a transport nothing else happens; otherwise each module is stopped once, in the dict's order, then the transport is shut down, the calls added stopping exactly the registered modules; the class invariant is kept |
| InnerServing.StartCallsCover | src/inner_server.py:86-87 | the start calls added name exactly the listed modules |
| InnerServing.StartCalls | src/inner_server.py:86-87 | one `start` call per module name, in order |
| InnerServing.StartCallsAppend | src/inner_server.py:86-87 | one more module adds exactly its `start` call at the end |
| InnerServing.RunThenStop | src/inner_server.py:76-102 | a run and a stop make the transport start first and its shutdown last, with every module started, in order, before every module is stopped, in the same order |
| MetaServer.Flags | src/server_osc_modules/MetaServerModule.py:20-22 | two command-line words per argument |
| MetaServer.FlagsLayout | src/server_osc_modules/MetaServerModule.py:20-22 | argument `i` becomes `--<key>` at position `2i` and its value's `str()` right after it, in the arguments' order |
| MetaServer.CommandLayout | src/server_osc_modules/MetaServerModule.py:19-22 | the command is the process name, then the fixed arguments unchanged, then a `--<key> <value>` pair per argument, in order |
| MetaServer.Command | src/server_osc_modules/MetaServerModule.py:19-22 | the command starts with the process name and has one word per fixed argument and two per keyword argument |
| MetaServer.InnerServer.constructor | src/server_osc_modules/MetaServerModule.py:12-15 | no process yet, the given process name and fixed arguments, nothing called |
| MetaServer.InnerServer.Start | src/server_osc_modules/MetaServerModule.py:17-24 | while a process is held nothing happens; otherwise exactly one new process is spawned with the assembled command and held |
| MetaServer.InnerServer.Stop | src/server_osc_modules/MetaServerModule.py:26-34 | afterwards no process is held; a held one got the calls `StopCalls` gives, nothing is spawned |
| MetaServer.InnerServer.Restart | src/server_osc_modules/MetaServerModule.py:36-38 | the old process, if any, is stopped, then exactly one new process is spawned and held |
| MetaServer.StopCalls | src/server_osc_modules/MetaServerModule.py:26-34 | no calls without a process; otherwise it is sent `SIGINT` first and waited for last, and killed in between exactly when sending the signal failed |
| MetaServer.AssembleCommand | src/server_osc_modules/MetaServerModule.py:19-22 | the loop that builds the command yields `Command` of its inputs |
| MetaServer.InnerCommand | src/server_osc_modules/MetaServerModule.py:72-77 | the child is `python ./inner_server.py --ip <ip> --port <inner_port>` |
| MetaServer.MetaServerModule.constructor | src/server_osc_modules/MetaServerModule.py:52-53 | no inner server yet, with the outer server's options |
| MetaServer.MetaServerModule.Start | src/server_osc_modules/MetaServerModule.py:71-77 | a fresh inner server for `python ./inner_server.py` is made and has spawned exactly one process, with the inner command |
| MetaServer.MetaServerModule.OscRestart | src/server_osc_modules/MetaServerModule.py:58-69 | before `start` the handler raises `AttributeError`; otherwise the inner server is restarted with the inner arguments |
| MetaServer.MetaServerModule.Stop | src/server_osc_modules/MetaServerModule.py:79-80 | before `start` it raises `AttributeError`; otherwise the inner server's process is stopped |
| ScriptClient.IsIntOfStr | manual_tests/test_client.py:13-18 | `is_int` holds of every integer's decimal text, and `int()` gives that integer back |
| ScriptClient.IsInt | manual_tests/test_client.py:13-18 | `is_int` holds only of a text with at least one digit |
| ScriptClient.ParseAll | manual_tests/test_client.py:35 | the words convert exactly when each is an integer, and then each converts to its own value, in order |
| ScriptClient.Convert | manual_tests/test_client.py:31-88 | an unknown type raises `KeyError`; `str` joins the words with spaces, `str[]` keeps them, `none` gives `None`; `int` and `bool` need a first word that is an integer (`IndexError` without one, `ValueError` otherwise), `bool` being whether it is non-zero; `int[]` converts every word or raises `ValueError`; the float kinds are left out |
| ScriptClient.DigitNotKind | manual_tests/test_client.py:31-41 | a word with a digit in fourth place names no type, which is why a glued macro value makes `KeyError` |
| ScriptClient.Strs | manual_tests/test_client.py:35 | one decimal word per integer, in order |
| ScriptClient.IntsRoundTrip | manual_tests/test_client.py:35 | `int[]` of the decimal words of a list of integers gives back that list |
| ScriptClient.SetDefine | manual_tests/test_client.py:77-78 | afterwards the name means the value and every other name means what it did; a new name is added at the end of the dict's order, a known one keeps its place |
| ScriptClient.Undefine | manual_tests/test_client.py:79-81 | afterwards the name is undefined and every other name means what it did; an unknown name changes nothing |
| ScriptClient.DefineThenUndefine | manual_tests/test_client.py:77-81 | defining a new name and undefining it gives back the defines before |
| ScriptClient.UndefineLast | manual_tests/test_client.py:79-81 | undefining the last name added gives back the defines before it |
| ScriptClient.Pattern | manual_tests/test_client.py:58 | the text replaced for a macro is ` #<name> `: a space, `#`, the name, a space |
| ScriptClient.ReplaceNoHash | manual_tests/test_client.py:58 | a line without `#` is not changed by a replacement |
| ScriptClient.Expand | manual_tests/test_client.py:56-58 | corrected (macro expansion, Findings row 9): each macro of the dict, in order, replaces ` #<name> ` by its value between spaces; a line without `#` is left as it is |
| ScriptClient.ExpandAsWritten | manual_tests/test_client.py:56-58 | as written, each macro replaces ` #<name> ` by its bare value; a line without `#` is left as it is |
| ScriptClient.ReplaceAfter | manual_tests/test_client.py:58 | `str.replace` scans from the left: text without `#` before the first occurrence is kept as it is |
| ScriptClient.NotAtFront | manual_tests/test_client.py:58 | text in front of the pattern keeps it from matching at the first position |
| ScriptClient.Chomp | manual_tests/test_client.py:48-49 | one trailing newline is dropped, nothing else |
| ScriptClient.NonEmpty | manual_tests/test_client.py:69 | only non-empty words are kept, all from the list, and a list without empty words is kept whole |
| ScriptClient.Words | manual_tests/test_client.py:67-69 | the words are non-empty and hold no space |
| ScriptClient.WordsOfJoin | manual_tests/test_client.py:67-69 | splitting words joined by single spaces gives them back |
| ScriptClient.FirstWord | manual_tests/test_client.py:67-69 | a line that starts with a non-space has a word |
| ScriptClient.Dispatch | manual_tests/test_client.py:72-89 | `#DEFINE` with a name and a value sets the name to the rest joined by spaces; `#UNDEFINE name` drops it; any other line keeps the defines; a lone word is sent with `NO ARGS PROVIDED`; otherwise the first word is the topic and the second the type, and the message sent is the conversion of the rest, a failed conversion being reported |
| ScriptClient.DispatchTopic | manual_tests/test_client.py:82-89 | a line whose first word is a plain topic sends the conversion of its arguments, and changes no define |
| ScriptClient.MacroGluedAsWritten | manual_tests/test_client.py:58 | as written, the value is glued to the word before the macro and the space after it is lost |
| ScriptClient.UseLineAsWritten | manual_tests/test_client.py:56-88 | as written, `<topic> int #<name>` with a numeric macro makes the type word `int<digits>`, which raises `KeyError` and sends nothing |
| ScriptClient.RunGlued | manual_tests/test_client.py:56-89 | as written, that line reads as the two words topic and `int<digits>` |
| ScriptClient.GluedLine | manual_tests/test_client.py:56-69 | as written, that line cleans to the topic and `int<digits>` joined by one space |
| ScriptClient.RunOneAt | manual_tests/test_client.py:45-91 | corrected: an empty line raises `IndexError`; a line that cleans to nothing does nothing; nothing else raises out of it |
| ScriptClient.RunOneAsWritten | manual_tests/test_client.py:45-91 | as written, too, an empty line raises `IndexError` and nothing else raises out of `run_one` |
| ScriptClient.RunCleaned | manual_tests/test_client.py:63-91 | a cleaned line that is empty does nothing, and no exception leaves the `try` |
| ScriptClient.CommentIgnored | manual_tests/test_client.py:51-52 | what follows the first `;` of a line changes nothing |
| ScriptClient.MacroExpandsToWords | manual_tests/test_client.py:55-58 | corrected: a line using a macro does what the line with the macro's value written out does |
| ScriptClient.MacroUsed | manual_tests/test_client.py:56-58 | corrected: the macro use at the end of a line is replaced by its value, with the spaces around it kept |
| ScriptClient.UncommentedLine | manual_tests/test_client.py:48-52 | a line without `;` or a trailing newline is kept whole |
| ScriptClient.StripPadded | manual_tests/test_client.py:56-61 | stripping the padding added around a trimmed line gives the line back |
| ScriptClient.Cleaned | manual_tests/test_client.py:48-61 | corrected (macro expansion, Findings row 9): the cleaned line has no whitespace at either end, and a line with no comment, no macro use (or no macro defined) and no surrounding whitespace is read as it is |
| ScriptClient.JoinEnds | manual_tests/test_client.py:78 | a line joined from words starts with the first word's first letter, ends with the last word's last letter, and holds only their letters and spaces |
| ScriptClient.LineOfWords | manual_tests/test_client.py:67-69 | a line of words joined by single spaces has no comment or padding, and splits back into the same words |
| ScriptClient.RunWords | manual_tests/test_client.py:45-89 | a line of words, with no macro to expand, is dispatched on exactly those words |
| ScriptClient.DefineLine | manual_tests/test_client.py:77-78 | `#DEFINE name value` on no defines defines exactly that name as that value |
| ScriptClient.UseLine | manual_tests/test_client.py:55-89 | corrected: after defining a macro as an integer's digits, `<topic> int #<name>` sends that integer on the topic |
| ScriptClient.SpacedLine | manual_tests/test_client.py:55-69 | corrected: that line reads as the three words topic, `int` and the value |
| ScriptClient.RunIntWords | manual_tests/test_client.py:67-89 | a line of a topic, `int` and a value is dispatched on those three words |
| ScriptClient.DefinedMacroAsWritten | manual_tests/test_client.py:56-88 | defining `n` as `3` and then sending `/t int #n`: the code as written reports `KeyError`, the corrected reading sends 3 on `/t` |
| ScriptClient.Client.constructor | manual_tests/test_client.py:43 | no defines, nothing sent |
| ScriptClient.Client.RunOne | manual_tests/test_client.py:45-91 | corrected (macro expansion, Findings row 9): the outcome and new defines `RunOneAt` gives, and the message sent, if any, appended to what was sent |
| ScriptClient.Perform | manual_tests/test_client.py:63-91 | the step `RunCleaned` gives |
| ScriptClient.Clean | manual_tests/test_client.py:45-61 | corrected (macro expansion, Findings row 9): the cleaned line `Cleaned` gives |

## Left out

- Concurrency: `ThreadSafeDict` and its lock (`src/server_osc_modules/utils.py`), the transport threads, `serve_forever`, and `locks_drones`, which is read as the identity.
- Transport, CLI and process plumbing: argparse, the signal handlers, the restart loop of `server.py`, the sleep loop of `inner_server.run`, and `Popen`, a child process being an opaque handle whose calls are recorded.
- Foreign libraries: cflib (`Crazyflie`, `LogConfig`, the TOCs, `commander`), `LoPoAnchor`, the pythonosc dispatcher's wildcard matching, UDP clients and `json.dumps` are handles or values whose calls are recorded in order, not behaviour.
- Printing: `_debug`, colorama and `print` are not modelled. The exceptions are the lines `osc_send_toc` prints, which are the observable result there, and the printed address of the `server_osc_modules` `osc_send_toc`.
- `_error` is an appended report; the report's text is a datatype, not the formatted string.
- Floating point: the `float`, `float[]` and `blob` converters of the script client give an `Unmodelled` outcome. The `#WAIT` sleep and the `#IMPORT` file read are outcomes that name the directive; `run_interactive` and `run_from_file` are not modelled.
- `ParseInt` models `int()` on decimal text with an optional sign and surrounding whitespace. It does not accept underscores or non-ASCII digits.
- The 25 ms setpoint streaming loop is in a file that is not part of this model.
- Not modelled: `src/server_osc_modules/CrazyflieModule.py` and `src/server_osc_modules/ParamModule.py`, which `inner_server.build_routes` uses. Only the module start and stop order of `inner_server.py` is modelled.
- Left out as debug-only or trivial: `TestModule` (both trees), `ServerModule`, `manual_tests/test_server.py` and `src/test_client.py`.
- The `osc_modules` tree uses `multi_nodes`, `lps_node_has_position` and `locks_drones` without defining them; they are modelled from the `server_osc_modules` tree, and the import-time `NameError` is not modelled.
- `_on_log_received` of the `osc_modules` log module (`src/osc_modules/LogModule.py:127-128`) only prints; it is recorded as the `PrintingCallback` registration and nothing more.
- `set_node_number` never resizes `lps_positions`; the model keeps that, and an index past the list is an `IndexError` outcome.
- CrazyflieHandlers.GoalAt: the setpoint carries `z` as received, not `int(z*1000)`, because the conversion is floating point.
- LegacyCrazyflie.LegacyGoalAt: the setpoint carries `z` as received, not `int(z*1000)`, for the same reason.
- ServerLogHandlers.ServerSendTocAt: the contract does not name the first added call (the printed address); it states the count, the kept prefix and the published table.
- ServerFanOut.DefaultLoggersAt: the contract states the malformed-id case only; the success case is `DefaultLoggersSetUp`, for a connected drone without those logs.
- ServerFanOut.ServerFan: the contract states the empty loop and where an escaping exception comes from; each turn is stated by `ServerFanStep`.
- ServerFanOut.EarlyFan: the contract does not state the turn after a handler that raised; `StarReachesOnlyFirstAsWritten` exhibits the early return.
- ScriptClient.RunOneAt: the contract states the empty-line, blank-line and no-escaping-exception cases; the rest is stated by `RunWords`, `CommentIgnored`, `MacroExpandsToWords`, `DefineLine` and `UseLine`.
- ScriptClient.Convert: the float-based kinds are only classified, not converted.
- InnerServing.Server.Run: only the part before the wait loop is modelled; the transport reset after the loop ends is not.
- FleetServer.Server.Listen: only the part of `run` before `join` is modelled; the transport reset after the join is not.
- MetaServer.InnerServer.Stop: whether `send_signal` fails is a parameter, since it depends on the operating system.
- FleetServer.Server.BuildRoutes: models the module table as intended. As written, `ServerModule`, `CrazyflieModule` and `ParamModule` hand `server=` on to `OscModule.__init__` (`src/osc_modules/OscModule.py:30`), which declares no such parameter, so `build_routes` raises `TypeError` at its first entry and no module is stored; `BuildRoutesRaisesAsWritten` states this (Findings row 10).
- FleetServer.NewModules: builds the six modules as intended; as written three of its six constructors raise `TypeError` for the same reason (Findings row 10).
- FleetServer.Server.Stop: models `stop` as intended. As written, no module of the `osc_modules` tree defines `stop`, so the first `module.stop()` raises `AttributeError` and the transport is never shut down; `StopAsWritten` and `StopAfterBuildAsWritten` state this (Findings row 11).
- ParamHandlers.SendTocVariableAt: models the publication as intended. As written, `self._send` (`src/osc_modules/ParamModule.py:91`) is defined by no class of the `osc_modules` tree (`OscModule`, `src/osc_modules/OscModule.py:22-90`, has no `_send`), so a group of the table raises `AttributeError`, which `multi_drones` catches and reports; `SendTocVariableAsWritten` and `SendTocVariableParamAsWritten` state this (Findings row 12).
- ParamHandlers.SendTocAt: models the publication as intended; as written `self._send` (`ParamModule.py:113`) raises `AttributeError` for every connected drone; `SendTocAsWritten` and `SendTocAsWrittenRaises` state this (Findings row 13). The `print(address)` before it (`ParamModule.py:107`) is not modelled.
- ParamHandlers.OnParamUpdate: models the publication as intended; as written `self._send` (`ParamModule.py:146`) raises `AttributeError` on every name with one dot, so no update is ever published; `OnParamUpdateAsWritten` and `ParamUpdateAsWrittenRaises` state this (Findings row 14).
- Reports by name: `ClientModule`, `CrazyflieModule`, `LogModule`, `LpsModule`, `ParamModule` and `ServerModule` never set `self.name`, which `OscModule.__init__` leaves `None` (`src/osc_modules/OscModule.py:36`). As written, `_error` (`OscModule.py:66`) and, with `debug` on, `_debug` (`OscModule.py:58`) raise `TypeError` when they add it to a string, so in those modules every refusal and every debug line, including the ones `__call__` prints after registering the routes, would end in `TypeError`. The model records each refusal as a report, as intended.
- OscRouting.Regexed: requires the literal text of a template to hold no regex metacharacter, so that the regex reads it as itself; group names are taken to be ASCII identifiers without `>`, where Python's `re` also takes any `str.isidentifier()` name (such as `é`) and reads `{a>b}` as the group `a` followed by `b>`; the model gives `PatternError` for both. Every route table of the repository meets these restrictions, and templates that do not are not modelled.
- Whitespace: `Text.IsSpace` is space, tab, newline, carriage return, vertical tab and form feed. Python's `strip()`, `split()` and `int()` also accept the ASCII separators `\x1c`-`\x1f` and Unicode whitespace, which are not modelled.
- `print(t)` of a table in the `osc_modules` log module prints the dict's repr; the model records it as the printed table value, the same value that is published as JSON elsewhere, not its text.
- A TOC is a list of groups, each with its names, so it can hold a group name twice, where the source's dict cannot; lookups take the first entry of a group.

## Findings

| source | as written | input that shows it | evidently intended | confidence | as-written member | corrected member |
|---|---|---|---|---|---|---|
| src/osc_modules/osc_validators.py:34 | the "Bad node_id" message adds the int node count to a string, so it raises `TypeError` | node `9` with 8 nodes | report the bad node and skip the handler, as the `server_osc_modules` copy does with `str()` | not executed | OscValidators.LpsNodeOutOfRangeRaises | ServerValidators.LpsNodeChecksAgree |
| src/osc_modules/Lps.py:53 | the same string-plus-int message raises `TypeError` | `/lps/9/set_position` with 8 nodes | report the bad node | not executed | LegacyLps.LegacyBadNodeRaises | LegacyLps.LegacySetNodePositionAt |
| src/server_osc_modules/LogModule.py:190 | `'/'.join([drone_id, toc_variable])` joins an int and raises `TypeError` | a connected drone 0 whose log TOC has group `pm`, selector `0`, variable `pm` | publish the group's sorted names under `/<id>/toc/<group>`, as the class docstring says | not executed | ServerLogHandlers.SendTocVariableAsWrittenRaises | ServerLogHandlers.ServerSendTocVariableAt |
| src/osc_modules/osc_validators.py:79-80 | `_param_exists` reads `self.drones` (the module has none) and the log TOC | any `set` on a connected drone with PARAM present | look the group and name up in the drone's parameter TOC, as the `server_osc_modules` copy does | not executed | OscValidators.ParamExistsAsWritten | ServerValidators.ParamChecksAgreeOffToc |
| src/osc_modules/osc_validators.py:104-111 | `*` yields the connected records, and `int(record)` raises `TypeError` outside the `try` | selector `*` with one connected drone | call the handler once per connected drone id | not executed | OscValidators.StarAbortsAsWritten | OscValidators.StarCallsConnectedFixed |
| src/server_osc_modules/osc_validators.py:148 | `return` inside the loop stops after the first target whose handler returns | selector `*` with two connected drones, adding a new log | run the handler for every target | not executed | ServerFanOut.StarReachesOnlyFirstAsWritten | ServerFanOut.ServerMultiDrones |
| src/osc_modules/ClientModule.py:32 | `udp_client` is never imported, so adding a new client raises `NameError` and the table never grows | `/client/add` with `127.0.0.1` and `5006` on an empty table | store a new `SimpleUDPClient` for the pair | not executed | ClientHandlers.AddClientNeverAddsAsWritten | ClientHandlers.AddClientAt |
| src/osc_modules/CrazyflieModule.py:55-57 | the connection callback passes the int id as the selector, and `';' not in drones` raises `TypeError` | drone `0` connecting with LPS present | send the stored LPS positions to that drone | not executed | OscValidators.IntSelectorFailsAsWritten | OscValidators.IntSelectorFixed |
| manual_tests/test_client.py:58 | a macro use ` #k ` is replaced by the bare value, so the value is glued to the word before it | `#DEFINE n 3`, then `/t int #n` | replace the macro by its value between spaces, so that `/t int 3` is sent | not executed | ScriptClient.DefinedMacroAsWritten | ScriptClient.UseLine |
| src/osc_modules/ServerModule.py:14 | `ServerModule`, `CrazyflieModule` and `ParamModule` hand `server=` on to `OscModule.__init__`, which has no such parameter, so `build_routes` raises `TypeError` at its first entry | `Server().build_routes()` | build and attach the six modules, each on its base topic | not executed | FleetServer.BuildRoutesRaisesAsWritten | FleetServer.Server.BuildRoutes |
| src/server.py:95 | no module of the `osc_modules` tree defines `stop`, so the first `module.stop()` raises `AttributeError` and the transport is not shut down | `stop()` after `build_routes` and `run` | stop every module, then shut the transport down | not executed | FleetServer.StopAfterBuildAsWritten | FleetServer.Server.Stop |
| src/osc_modules/ParamModule.py:91 | `self._send` is not defined in the `osc_modules` tree, so sending a group of the parameter table raises `AttributeError` | a connected drone 0 whose parameter table has group `pm`, `/0/send_toc/pm` | publish the group's sorted names under `/<id>/toc/<group>`, as the class docstring says | not executed | ParamHandlers.SendTocVariableParamAsWritten | ParamHandlers.SendTocVariableAt |
| src/osc_modules/ParamModule.py:113 | the same undefined `self._send` makes `osc_send_toc` raise `AttributeError` for every connected drone | a connected drone 0, `/0/send_toc` | publish the sorted table as JSON under `/<id>/toc` | not executed | ParamHandlers.SendTocAsWrittenRaises | ParamHandlers.SendTocAt |
| src/osc_modules/ParamModule.py:146 | the update callback reaches the undefined `self._send` for every one-dot name, so no update is published | `param` `pm.vbat` with any value | publish the value under `<drone>/<group>/<name>` | not executed | ParamHandlers.ParamUpdateAsWrittenRaises | ParamHandlers.OnParamUpdate |
