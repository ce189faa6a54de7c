# audience, modelled in Dafny

audience runs a web app in native desktop windows. A small native runtime
(the *shell*) loads the first usable windowing library (the *nucleus*:
WebKit on Unix, Cocoa on macOS, Edge or IE on Windows) and opens windows
whose content is served from the app directory by a local webserver. A
backend program (here the Node.js client) can drive the runtime over a
*control channel*: a local socket on which it writes one JSON command per
line and from which it reads one JSON event per line. Inside each window a
small script (the *frontend*) gives the web content `window.audience`, with
message queues between the page and the backend.

This project models, file by file:

- the Node.js client: its pending-command table, id search, event dispatch,
  callback registry and launch arguments (`NodeClient`);
- the frontend bridge scripts: both message queues, their drains and the
  public interface (`WebviewBridge`);
- the runtime side of the control channel: line framing, command execution
  and replies, event emission, the write and command queues, and the
  life cycle of the peer connection (`Framing`, `ChannelCommands`,
  `RuntimeChannel`), with the two sides tied together in `Protocol`;
- the nucleus interface: the window handle table, handle allocation and
  the event emitters (`NucleusRegistry`);
- the shell library: nucleus loading, window creation and event routing
  (`ShellLib`), and the shell's command line and start-up (`ShellMain`);
- the webserver's path handling, request handling, stream resolution and
  websocket session (`PathUtil`, `HandleRequest`, `StreamResolver`,
  `WebsocketSession`);
- the scope guard and the memory scope built on it (`ScopeGuard`,
  `MemoryScope`), window icon selection (`Icons`), and the ping example's
  ICMP package and checksum (`Ping`).

`Json`, `OrderedSet` and `Wrappers` hold the values the modules share: JSON
values and their compact printer, a JavaScript `Set` as an ordered sequence
of distinct members, and option and result types.

Classes stand for the source's objects whose state changes (the client,
the bridge, the channel, the registry, the shell, the guard, the session);
loops of the source are `while`/`for` loops proved against specification
functions; pure code is functions and lemmas. Foreign code (the operating
system, the nucleus libraries, the socket, the clock and the random number
generator, JSON parsing) enters as parameters: oracle functions, or records
of the calls made.

## Model

| member | source | states |
|---|---|---|
| NodeClient.CommandObject | integrations/backend/nodejs/index.ts:167 | the command object carries the id, the function name and the arguments under "id", "func" and "args"; absent arguments leave "args" out |
| NodeClient.CommandLine | integrations/backend/nodejs/index.ts:167 | what is written to the runtime is one line: it ends in a line feed and holds no other |
| NodeClient.ProbesNeverDecrease | integrations/backend/nodejs/index.ts:159-162 | the id search never goes below the clock value and never moves back |
| NodeClient.FindFreeId | integrations/backend/nodejs/index.ts:159-162 | the id found is at least the clock value, its decimal text is not pending, and it is the first probe whose text is not pending |
| NodeClient.SocketPath | integrations/backend/nodejs/index.ts:118 | the channel is a named pipe under `\\.\pipe\` on Windows and a file under `/tmp/` elsewhere |
| NodeClient.SpawnArgs | integrations/backend/nodejs/index.ts:134-135 | the runtime's argument list starts with `--channel` and the socket path |
| NodeClient.SpawnArgsLayout | integrations/backend/nodejs/index.ts:134-140 | after `--channel` and the path come exactly one flag and its comma-joined value per given option, in the fixed order win, mac, unix, icons, and nothing else |
| NodeClient.TableArgsLayout | integrations/backend/nodejs/index.ts:136-139 | a flag table yields two arguments per given option, the flag and its joined value, in table order |
| NodeClient.SpreadArrays | integrations/backend/nodejs/index.js:49-55 | the compiled spread helper's two loops (size, then copy) produce the concatenation of the argument arrays |
| NodeClient.SpreadFormMatchesSource | integrations/backend/nodejs/index.js:122-124 | the compiled client's five spread parts concatenate to the same argument list as the TypeScript source |
| NodeClient.CommandFor | integrations/backend/nodejs/index.ts:173-193 | each API call dispatches one of the seven command names; exactly the four calls with arguments carry them, and the three calls on an existing window name its handle (the position object has a fixed key order, see "Left out") |
| NodeClient.ResultId | integrations/backend/nodejs/index.ts:99 | a pending entry can be found only when the data has an "id" member that is a string |
| NodeClient.NotifyReachesEachOnce | integrations/backend/nodejs/index.ts:111-113 | notifying a callback set calls every registered callback exactly once, calls nothing else, and always passes the event's data |
| NodeClient.Cleared | integrations/backend/nodejs/index.ts:209-214 | `off(cb)` leaves `cb` out of the set and every other member in it; `off()` empties it |
| NodeClient.ClearEach | integrations/backend/nodejs/index.ts:208-215 | the loop over the four sets gives the registry with every set cleared |
| NodeClient.OffKeepsRegistry | integrations/backend/nodejs/index.ts:207-216 | after `off` the four names remain and each set is still a set; `off(cb)` removes `cb` everywhere and only it; `off()` empties every set |
| NodeClient.DispatchKeepsTable | integrations/backend/nodejs/index.ts:163-166 | a new pending promise under an unused id keeps the table invariant: a promise is pending exactly when one id refers to it |
| NodeClient.SettleKeepsTable | integrations/backend/nodejs/index.ts:99-107 | removing a pending id and settling its promise keeps the same invariant |
| NodeClient.Client.constructor | integrations/backend/nodejs/index.ts:88-94 | no pending command and the four event names, each with an empty set |
| NodeClient.Client.DispatchCommand | integrations/backend/nodejs/index.ts:157-169 | the id is a fresh decimal number at least the clock value; the table gains exactly that id for a new pending promise; exactly the command line is written; the invariant holds |
| NodeClient.Client.Call | integrations/backend/nodejs/index.ts:173-193 | an API call dispatches its command with its arguments under a fresh id that is the decimal text of a number at least the clock value; the handlers, the callback log, the server and the exit promise are unchanged |
| NodeClient.Client.ProcessEvent | integrations/backend/nodejs/index.ts:97-115 | a result for a pending id removes that id and settles its promise (resolved with `data.result` on success, rejected with "command failed" on failure); a result for another id changes nothing; a result with absent or null data throws; an event name calls its callbacks once each, in order, up to and including the first that throws, whose exception ends the call; any other name is ignored |
| NodeClient.RunCallbacks | integrations/backend/nodejs/index.ts:111-113 | the loop calls the callbacks in set order; it fails exactly when some callback throws, and then the calls end with the first thrower; otherwise every callback was called once with the data |
| NodeClient.Client.On | integrations/backend/nodejs/index.ts:195-206 | adding a callback to one event's set leaves the other sets and the commands alone |
| NodeClient.Client.OnWindowMessage | integrations/backend/nodejs/index.ts:195-197 | the callback joins the `window_message` set |
| NodeClient.Client.OnWindowCloseIntent | integrations/backend/nodejs/index.ts:198-200 | the callback joins the `window_close_intent` set |
| NodeClient.Client.OnWindowClose | integrations/backend/nodejs/index.ts:201-203 | the callback joins the `window_close` set |
| NodeClient.Client.OnAppQuit | integrations/backend/nodejs/index.ts:204-206 | the callback joins the `app_quit` set |
| NodeClient.Client.Off | integrations/backend/nodejs/index.ts:207-216 | the registry becomes the cleared registry and keeps its invariant |
| NodeClient.Client.OnProcessExit | integrations/backend/nodejs/index.ts:142-147 | the runtime's exit closes the server and resolves the exit promise, nothing else |
| OrderedSet.Add | integrations/backend/nodejs/index.ts:196 | `Set.add` keeps the members distinct, appends a new member and leaves the set unchanged for an existing one |
| OrderedSet.Delete | integrations/backend/nodejs/index.ts:210 | `Set.delete` removes exactly the given member, keeping the order of the others |
| OrderedSet.DeleteKeepsDistinct | integrations/backend/nodejs/index.ts:210 | deleting keeps the members distinct |
| OrderedSet.DeleteUndoesAdd | integrations/frontend/index.ts:139-145 | deleting a handler just added restores the set as it was |
| Json.Get | src/shell/app/channel.cpp:237 | a member is found only in an object holding it; absent for another value or a missing key |
| Json.NatToStringRoundTrip | integrations/backend/nodejs/index.ts:163 | the decimal text of an id reads back as the number |
| Json.NatToStringInjective | integrations/backend/nodejs/index.ts:160-163 | two ids have the same text exactly when they are the same number |
| Json.Lookup | src/shell/app/channel.cpp:237 | the value found is paired with the key in the object; nothing is found only when no member has the key |
| Json.NatToString | src/shell/app/channel.cpp:233 | a number prints as a non-empty run of decimal digits without a leading zero |
| Json.IntToString | src/shell/app/channel.cpp:233 | an integer prints as a non-empty text without a line feed |
| Json.Escape | src/shell/app/channel.cpp:175 | an escaped string holds no line feed |
| Json.Quote | src/shell/app/channel.cpp:175 | a quoted string starts with '"' and holds no line feed |
| Json.EscapeChar | src/shell/app/channel.cpp:175 | quote, backslash and control characters are escaped; every other character is kept; no escape holds a line feed |
| Json.DumpIsOneLine | src/shell/app/channel.cpp:175 | the compact printed form of any JSON value holds no line feed, so one value travels as one line |
| WebviewBridge.FanOutLayout | integrations/frontend/index.ts:100-113 | a drained queue reaches every handler once per message: entry k times the number of handlers plus j is message k given to handler j, so each handler sees the messages in queue order |
| WebviewBridge.FanOutAppend | integrations/frontend/index.ts:100-113 | draining two consecutive parts of the queue delivers what draining them together does |
| WebviewBridge.Bridge.constructor | integrations/frontend/index.ts:78-85 | both queues and the handler set start empty |
| WebviewBridge.Bridge.PushToBackend | integrations/frontend/index.ts:87-98 | the messages sent are a prefix of the outbound queue, in order, and the rest stays queued; the drain stops only at an unready backend, a throwing send (its message stays at the head) or an empty queue |
| WebviewBridge.Bridge.DeliverToAll | integrations/frontend/index.ts:103-105 | the handlers are called in set order until one throws; that one was called and none after it |
| WebviewBridge.Bridge.PushToHandlers | integrations/frontend/index.ts:100-113 | every message shifted was delivered to every handler; a throwing handler stops the drain with the head still queued, after the handlers up to it received it; without handlers nothing is delivered or shifted |
| WebviewBridge.Bridge.OnBackendReady | integrations/frontend/index.ts:116-118 | the ready notification drains the outbound queue as `PushToBackend` does |
| WebviewBridge.Bridge.PostMessage | integrations/frontend/index.ts:133-138 | a non-string throws and queues nothing; a string is queued and the drain runs, so the messages sent and still queued are the old ones followed by the new one, none lost or reordered |
| WebviewBridge.Bridge.BackendMessage | integrations/frontend/index.ts:120-125 | the current frontend throws on a non-string message and queues nothing; otherwise the message joins the inbound queue, which is drained to the handlers |
| WebviewBridge.Bridge.OnMessage | integrations/frontend/index.ts:139-141 | the handler joins the set; the queues stay as they are |
| WebviewBridge.Bridge.OffMessage | integrations/frontend/index.ts:142-149 | with a handler, only that handler leaves the set; without one, the set is emptied |
| WebviewBridge.Page.constructor | integrations/frontend/index.ts:28 | a page starts without `window.audience` |
| WebviewBridge.Page.InstallFrontend | integrations/frontend/index.ts:27-29 | a second run of the frontend script throws "double initialization" and keeps the first bridge; a first run installs empty queues with the Edge backend exactly when the webview signature is "edge" and the websocket backend otherwise |
| WebviewBridge.Page.InstallEdgeScript | src/webapp/messaging/edge.js:1-11 | the older Edge script returns silently when a bridge exists; otherwise it installs empty queues that accept any incoming value |
| Framing.ScanYieldsLines | src/shell/app/channel.cpp:526-572 | every command framed is non-empty and holds no line feed, and neither do the bytes held back |
| Framing.Scan | src/shell/app/channel.cpp:526-578 | the bytes held back are never more than the input, and a stream ending in a line feed holds nothing back; what the lines mean is stated by `Framing.ScanYieldsLines`, `Framing.FramingIgnoresChunkBoundaries` and `Framing.FramingRecoversLines` |
| Framing.ScanWithoutNewline | src/shell/app/channel.cpp:568-578 | bytes without a line feed frame no command and are only held back |
| Framing.ScanAppend | src/shell/app/channel.cpp:526-578 | reading a text in two pieces frames the first piece's commands, then those the second piece completes from the bytes held back |
| Framing.ScanAtNewline | src/shell/app/channel.cpp:528-566 | at a line feed, the held bytes and the chunk's bytes before it form the next command unless both are empty, and scanning goes on after the line feed with nothing held |
| Framing.FramingIgnoresChunkBoundaries | src/shell/app/channel.cpp:523-582 | however the transport cut the stream into chunks, the commands queued are the non-empty lines of the whole stream and the bytes held back are what follows its last line feed |
| Framing.SameStreamSameCommands | src/shell/app/channel.cpp:523-582 | two ways of cutting the same stream into chunks frame the same commands and hold back the same bytes |
| Framing.FramingRecoversLines | src/shell/app/channel.cpp:175 | non-empty one-line texts, each written followed by a line feed, frame back to exactly those texts with nothing held back |
| RuntimeChannel.EventObject | src/shell/app/channel.cpp:175 | the event object holds the name under "name" and the data under "data" |
| RuntimeChannel.EventLine | src/shell/app/channel.cpp:175 | an emitted event is one line, which the peer's line framing reads back as exactly the printed event |
| RuntimeChannel.ReplyLines | src/shell/app/channel.cpp:212-225 | one event line per reply, in reply order |
| RuntimeChannel.Outcomes | src/shell/app/channel.cpp:141-144 | one outcome per queued command |
| RuntimeChannel.OutcomeAt | src/shell/app/channel.cpp:141-144 | the outcome of command `i` is its execution with the library state after the `i` commands before it |
| RuntimeChannel.OneReplyPerCommand | src/shell/app/channel.cpp:138-146 | as many replies as lines that are JSON objects, each carrying the id of one of them, and reply `i` carries the id of the `i`-th such line |
| RuntimeChannel.RepliesInCommandOrder | src/shell/app/channel.cpp:138-146 | the reply ids, in order, are the ids of the JSON-object lines, in line order; proved by induction over the lines |
| RuntimeChannel.Objects | src/shell/app/channel.cpp:231 | one flag per command line, telling whether it is a JSON object |
| RuntimeChannel.FoldedReplies | src/shell/app/channel.cpp:141-144 | the replies gathered over a run are as many as the commands that had one, each taken from one of them |
| RuntimeChannel.Channel.constructor | src/shell/app/channel.cpp:52-90 | a new channel has the peer pipe and the three async handles, is neither activated nor connected, and has empty queues |
| RuntimeChannel.Channel.Emit | src/shell/app/channel.cpp:172-190 | the event's line is queued exactly while the emit handle exists; after shutdown the event is dropped; nothing else changes |
| RuntimeChannel.Channel.EmitWindowMessage | src/shell/app/channel.cpp:192-195 | queues `window_message` with the handle and the message |
| RuntimeChannel.Channel.EmitWindowCloseIntent | src/shell/app/channel.cpp:197-200 | queues `window_close_intent` with the handle |
| RuntimeChannel.Channel.EmitWindowClose | src/shell/app/channel.cpp:202-205 | queues `window_close` with the handle and whether it was the last window |
| RuntimeChannel.Channel.EmitAppQuit | src/shell/app/channel.cpp:207-210 | queues `app_quit` with null data |
| RuntimeChannel.Channel.ExecuteCommandLine | src/shell/app/channel.cpp:227-461 | one command makes its library calls and queues its one reply; a line that is not an object makes neither |
| RuntimeChannel.Channel.RunCommands | src/shell/app/channel.cpp:138-146 | every queued command is executed in arrival order, their library calls and replies are those of the run, and the queue is emptied |
| RuntimeChannel.Channel.WriteEvents | src/shell/app/channel.cpp:153-165 | every queued event is written in order when the peer exists, and the queue is emptied even when it does not |
| RuntimeChannel.Channel.PushQueues | src/shell/app/channel.cpp:135-170 | commands run only when activated and otherwise stay queued; events are written only when connected and otherwise stay queued; the replies of the commands just run are written after the events queued before them |
| RuntimeChannel.Channel.ReceiveChunk | src/shell/app/channel.cpp:526-578 | the commands queued and the bytes held after a chunk are exactly what line framing reads from the held bytes followed by the chunk |
| RuntimeChannel.FrameChunk | src/shell/app/channel.cpp:526-578 | the same on the queues as values: the command queue gains the framed lines, the held chunks become the framing's rest, and commands and held chunks stay non-empty and free of line feeds |
| RuntimeChannel.Channel.OnData | src/shell/app/channel.cpp:523-582 | a chunk is framed, then the queues are pushed. When activated, every framed command has run in order, with its library calls made, and the queue is empty; otherwise the commands wait. When connected, the earlier events and then the new replies are written, in order, if the peer exists; otherwise they wait queued. The connection flags are unchanged |
| RuntimeChannel.Channel.Activate | src/shell/app/channel.cpp:468-478 | only the activated flag changes; the waiting commands run in order and the queue is emptied; their replies follow the earlier events, written when connected and queued otherwise; when the peer is already gone the app quits after them |
| RuntimeChannel.Channel.ChannelActivate | src/shell/app/channel.cpp:92-103 | activation is signalled only while the activate handle exists: after shutdown it changes nothing, before it it activates and runs the waiting commands as the handler does |
| RuntimeChannel.Channel.ChannelShutdown | src/shell/app/channel.cpp:104-133 | shutdown is signalled only while the shutdown handle exists: a second shutdown changes nothing; the first deactivates, disconnects, closes the three handles and stops the loop, keeping the queues |
| RuntimeChannel.Channel.Shutdown | src/shell/app/channel.cpp:480-521 | shutdown deactivates and disconnects, asks the peer to shut down when it exists, closes the three async handles so later events are dropped, and stops the loop; the queues stay as they are |
| RuntimeChannel.Channel.CloseHandles | src/shell/app/channel.cpp:490-521 | the three async handles are closed and the loop is stopped; no other flag, queue or output changes |
| RuntimeChannel.Channel.OnConnect | src/shell/app/channel.cpp:584-593 | only the connected and reading flags change; when activated, the waiting commands run in order; the earlier events and then the new replies are written when the peer exists, and the event queue is emptied |
| RuntimeChannel.Channel.OnShutdown | src/shell/app/channel.cpp:595-604 | the completed shutdown disconnects and drops the peer; every other flag, the queues, the held bytes, the library calls and the output stay as they are |
| RuntimeChannel.Channel.OnEnd | src/shell/app/channel.cpp:606-614 | the end of the peer's stream disconnects and asks the peer to shut down when it exists; every other flag, the queues, the held bytes, the library calls and the output stay as they are |
| RuntimeChannel.Channel.OnClose | src/shell/app/channel.cpp:616-624 | a closed pipe only disconnects; once activated, the app quits; the queues and the output stay as they are |
| RuntimeChannel.Channel.OnError | src/shell/app/channel.cpp:626-639 | a peer error disconnects and drops the peer; once activated, the app quits; every other flag, the queues and the output stay as they are |
| ChannelCommands.At | src/shell/app/channel.cpp:406 | `at` succeeds exactly when the arguments are an object holding the key, and yields that member |
| ChannelCommands.AsString | src/shell/app/channel.cpp:420 | a string conversion succeeds exactly on a string, and yields it |
| ChannelCommands.AsBool | src/shell/app/channel.cpp:362 | a boolean conversion succeeds exactly on a boolean, and yields it |
| ChannelCommands.AsNumber | src/shell/app/channel.cpp:409 | an arithmetic conversion succeeds exactly on a number or a boolean, and yields the number unchanged |
| ChannelCommands.AsHandle | src/shell/app/channel.cpp:406 | a handle conversion succeeds exactly on a number or a boolean, and keeps a number in the 16-bit range unchanged |
| ChannelCommands.AsNumbers | src/shell/app/channel.cpp:327 | a vector conversion succeeds only on an array, element for element |
| ChannelCommands.NumbersOf | src/shell/app/channel.cpp:327 | the elements convert exactly when each of them does, and the vector holds each converted element in order |
| ChannelCommands.OptionalString | src/shell/app/channel.cpp:316-319 | an absent member gives none; a present string gives that string |
| ChannelCommands.OptionalBool | src/shell/app/channel.cpp:360-378 | an absent member gives none; a present boolean gives that boolean |
| ChannelCommands.OptionalPair | src/shell/app/channel.cpp:325-350 | an absent `size` or `pos` gives none; a vector of numbers is accepted exactly when it has two entries and otherwise fails with the member's own message |
| ChannelCommands.Location | src/shell/app/channel.cpp:299-314 | without `dir` and `url` the command fails with "either dir or url argument required" |
| ChannelCommands.CreateWindowCommand | src/shell/app/channel.cpp:292-403 | at most the screen query and one create; a screen query only after a valid location; the window created shows that location; success exactly when the window was asked for and its handle is not 0, with the handle as the result (see also the `Create…` lemmas) |
| ChannelCommands.UpdatePositionCommand | src/shell/app/channel.cpp:404-416 | success exactly when the one update call is made, and then with the handle and four coordinates read from the arguments under their names; no result value |
| ChannelCommands.PostMessageCommand | src/shell/app/channel.cpp:417-424 | success exactly when the one post call is made, and then with the handle and the string message read from the arguments; no result value |
| ChannelCommands.DestroyCommand | src/shell/app/channel.cpp:425-431 | success exactly when the one destroy call is made, and then with the handle read from the arguments; no result value |
| ChannelCommands.Dispatch | src/shell/app/channel.cpp:242-440 | an unknown function fails with "unknown command function" and calls nothing; the two queries answer with the library's list; `quit` quits and succeeds |
| ChannelCommands.ExecuteCommand | src/shell/app/channel.cpp:227-461 | a line gets a reply exactly when it is a JSON object; the reply carries the command's id and succeeds exactly when reading the command and performing it did not fail |
| ChannelCommands.ReplyEvent | src/shell/app/channel.cpp:212-225 | a success is emitted as `command_succeeded` with the id and the result (none when absent), a failure as `command_failed` with the id and the reason |
| ChannelCommands.UnknownOrMissingFuncFails | src/shell/app/channel.cpp:237-240 | a command with no `func`, or an unknown one, calls nothing and is answered with a failure giving the right reason |
| ChannelCommands.QueriesAndQuitSucceed | src/shell/app/channel.cpp:242-291 | `screen_list`, `window_list` and `quit` succeed whatever their arguments, after exactly one library call |
| ChannelCommands.HandleCommandsSucceed | src/shell/app/channel.cpp:404-431 | with a numeric handle, `window_destroy` succeeds, `window_update_position` succeeds when the four coordinates are numbers, and `window_post_message` when the message is a string |
| ChannelCommands.CreateNeedsLocation | src/shell/app/channel.cpp:299-302 | without `dir` and `url`, `window_create` fails before any library call |
| ChannelCommands.CreateUrlWins | src/shell/app/channel.cpp:304-314 | when both `dir` and `url` are given, the window shows the URL |
| ChannelCommands.CreateNeedsPairs | src/shell/app/channel.cpp:325-331 | a `size` that is not two numbers fails with its message after the screen query and before any window is created |
| ChannelCommands.CreateNeedsPositionPair | src/shell/app/channel.cpp:341-347 | the same for `pos` |
| ChannelCommands.CreateReportsHandle | src/shell/app/channel.cpp:396-402 | a created window's handle is the result; handle 0 fails with "could not create window" |
| ChannelCommands.CreatedWindowsAreWellFormed | src/shell/app/channel.cpp:296-396 | a window is created only with a location, and with a size and a position of two numbers each exactly when they were given |
| Protocol.ClientLineFramesToCommand | src/shell/app/channel.cpp:526-560 | the runtime frames a line the client writes into exactly the printed command object and holds nothing back |
| Protocol.RuntimeAnswersClientCall | src/shell/app/channel.cpp:227-461 | a command the client dispatches names a function the runtime knows and gets one reply carrying the client's id; every call but `window_create` succeeds |
| Protocol.CommandReachesBranch | src/shell/app/channel.cpp:232-238 | the client's command object is executed by the branch its function names, with its arguments or an empty object, and the reply carries its id |
| Protocol.ClientArgumentsConvert | src/shell/app/channel.cpp:404-431 | the arguments the client sends for the handle commands convert without error |
| Protocol.PositionArgumentsConvert | src/shell/app/channel.cpp:404-416 | the client's `window_update_position` arguments convert |
| Protocol.PositionArgumentsFound | integrations/backend/nodejs/index.ts:183 | the client's position arguments hold the handle and the four coordinates under their names |
| Protocol.MessageArgumentsConvert | src/shell/app/channel.cpp:417-424 | the client's `window_post_message` arguments convert |
| Protocol.ReplySettlesPromise | integrations/backend/nodejs/index.ts:97-109 | the event of any reply is a result event with the command's id, and it resolves the client's promise with the result on success and rejects it on failure |
| Protocol.OneCallOneReply | integrations/backend/nodejs/index.ts:167 | end to end, the line the client writes for an API call is framed, executed and answered with exactly one reply carrying the client's id |
| NucleusRegistry.ContextOf | src/nucleus/shared/interface.h:227 | a handle is found exactly when it is in the map, with the context paired with it |
| NucleusRegistry.HandleOf | src/nucleus/shared/interface.h:288 | a context is found exactly when it is in the map, with the handle paired with it |
| NucleusRegistry.Insert | src/nucleus/shared/interface.h:218 | inserting adds exactly the new pair |
| NucleusRegistry.Erase | src/nucleus/shared/interface.h:343 | erasing a context removes exactly its pair |
| NucleusRegistry.InsertWellFormed | src/nucleus/shared/interface.h:218 | a fresh non-zero handle paired with a fresh non-null context keeps the map one-to-one and ordered, and adds exactly that handle and that context |
| NucleusRegistry.EraseWellFormed | src/nucleus/shared/interface.h:343 | erasing keeps the map one-to-one and ordered and removes exactly that context |
| NucleusRegistry.HandleCount | src/nucleus/shared/interface.h:92 | the map has as many handles as entries |
| NucleusRegistry.FreeHandleExists | src/nucleus/shared/interface.h:210-215 | with fewer than 65535 windows some non-zero handle is free, so the allocation loop ends |
| NucleusRegistry.LastFocused | src/nucleus/shared/interface.h:165-168 | the index reported is that of the last listed window with focus, or -1 when none has it |
| NucleusRegistry.Present | src/nucleus/shared/interface.h:133-139 | every icon handed on comes from a present slot and every present slot is handed on, never more icons than slots |
| NucleusRegistry.SkipOne | src/nucleus/shared/interface.h:212-215 | a turn of the allocation loop moves one step closer to a free handle and skips only the zero handle or handles in use |
| NucleusRegistry.DestroyCalls | src/nucleus/shared/interface.h:112-116 | one destroy request per window, in handle order |
| NucleusRegistry.Registry.constructor | src/nucleus/shared/interface.h:473-475 | an empty map, counter 0 and no negotiation |
| NucleusRegistry.Registry.IsOnlyWindow | src/nucleus/shared/interface.h:102-105 | true exactly when the map holds one window and it is this context |
| NucleusRegistry.Registry.Init | src/nucleus/shared/interface.h:124-148 | the platform init receives the present icons in slot order; the negotiation is kept exactly when init succeeds |
| NucleusRegistry.Registry.WindowList | src/nucleus/shared/interface.h:150-178 | at most the cap's number of windows, in handle order, and the index of the last of them with focus |
| NucleusRegistry.Registry.AllocateHandle | src/nucleus/shared/interface.h:210-215 | the handle taken is non-zero and not in use, every counter value skipped was zero or in use, and the counter stands one past the handle, wrapping at 2^16 |
| NucleusRegistry.Registry.WindowCreate | src/nucleus/shared/interface.h:180-222 | the window is created with its title defaulting to "Loading..."; a null context gives handle 0 and changes nothing; otherwise the handle is the first free non-zero one from the counter on and is paired with the context unless the map already holds that context |
| NucleusRegistry.Registry.UpdatePosition | src/nucleus/shared/interface.h:224-239 | forwarded to the window's context for a known handle; nothing happens for an unknown one |
| NucleusRegistry.Registry.PostMessage | src/nucleus/shared/interface.h:241-256 | forwarded to the window's context for a known handle; nothing happens for an unknown one |
| NucleusRegistry.Registry.Destroy | src/nucleus/shared/interface.h:258-273 | a destroy request for a known handle's context; the map changes only when the window reports its close |
| NucleusRegistry.Registry.DestroyAll | src/nucleus/shared/interface.h:107-118 | every window is asked to close, in handle order, and the result says whether there was any |
| NucleusRegistry.Registry.Quit | src/nucleus/shared/interface.h:275-279 | every window is destroyed, then the platform quits |
| NucleusRegistry.Registry.EmitWindowMessage | src/nucleus/shared/interface.h:285-299 | the shell hears the message under the window's handle; an unknown context is ignored |
| NucleusRegistry.Registry.EmitWindowCloseIntent | src/nucleus/shared/interface.h:306-320 | the shell hears the close intent under the window's handle; an unknown context is ignored |
| NucleusRegistry.Registry.EmitWindowClose | src/nucleus/shared/interface.h:327-345 | the shell hears the close under the window's handle, then exactly that window leaves the map; an unknown context is ignored |
| NucleusRegistry.Registry.EmitAppQuit | src/nucleus/shared/interface.h:352-356 | the shell hears that the app quits |
| ShellLib.Candidates | src/shell/lib/lib.cpp:119-158 | the load order names at most one library per slot |
| ShellLib.CandidatesInOrder | src/shell/lib/lib.cpp:119-158 | the library list keeps slot order: the list of two stretches of slots is the first's followed by the second's |
| ShellLib.SkippedSlot | src/shell/lib/lib.cpp:133-134 | an empty slot, or a selector the platform does not know, adds no library |
| ShellLib.LoadOrderLibraries | src/shell/lib/lib.cpp:119-158 | the loop builds exactly the platform's library list for the load order |
| ShellLib.FirstUsable | src/shell/lib/lib.cpp:161-235 | the library kept is usable (loads, exports all seven entry points, initialises) and no earlier one is; none is kept only when no candidate is usable |
| ShellLib.Tried | src/shell/lib/lib.cpp:161-235 | the libraries loaded are a prefix of the candidates: up to the first usable one, or all of them |
| ShellLib.LoadCalls | src/shell/lib/lib.cpp:167-169 | one load per library tried, in order |
| ShellLib.RouteRespectsNegotiation | src/shell/lib/lib.cpp:266-325 | a window goes to the nucleus directly exactly when it handles the window's type, through a webserver exactly when a directory meets a nucleus handling URLs only, and never before initialisation |
| ShellLib.Route | src/shell/lib/lib.cpp:266-325 | nothing is routed before initialisation; a window goes directly only for a type the nucleus handles, and through a webserver only for a directory when the nucleus handles URLs and not directories (both directions in `ShellLib.RouteRespectsNegotiation`) |
| ShellLib.Shell.constructor | src/shell/lib/lib.cpp:73-85 | no entry point resolved, negotiation and handlers reset, both registries empty |
| ShellLib.Shell.InitShell | src/shell/lib/lib.cpp:98-246 | an initialised shell stays as it is and reports success; otherwise success exactly when some candidate is usable, the first usable one's negotiation and the application's handler kept, and every library up to it loaded in order; on failure nothing stays resolved |
| ShellLib.Shell.TryLibraries | src/shell/lib/lib.cpp:161-241 | the loop stops at the first usable library and keeps it; with none, all were loaded and everything is reset |
| ShellLib.Shell.TryLibrary | src/shell/lib/lib.cpp:163-227 | one library is loaded; it is kept exactly when usable, otherwise the entry points and the negotiation are reset |
| ShellLib.Shell.CreateWindow | src/shell/lib/lib.cpp:253-334 | uninitialised or unservable: handle 0 and no call; a handled type: one nucleus create; a directory for a URL-only nucleus: a webserver, a create for its URL, the server stopped when the window fails and registered under the window otherwise; handlers kept under every non-zero handle |
| ShellLib.Shell.PostMessage | src/shell/lib/lib.cpp:341-371 | a message goes to the nucleus when it handles messaging, else to the window's webserver, else nowhere; nothing before initialisation |
| ShellLib.Shell.DestroyWindow | src/shell/lib/lib.cpp:379-392 | the nucleus destroys the window only after initialisation; no other state changes |
| ShellLib.Shell.RunMain | src/shell/lib/lib.cpp:400-413 | the nucleus run loop starts only after initialisation |
| ShellLib.Shell.OnWindowMessage | src/shell/lib/lib.cpp:421-438 | the window's message handler runs when it has one; nothing else changes |
| ShellLib.Shell.OnWebserverMessage | src/shell/lib/lib.cpp:284-295 | a webserver's message goes to the message handler of the window registered for that server, and nothing else changes; a message of a server no longer registered is dropped |
| ShellLib.Shell.OnWindowWillClose | src/shell/lib/lib.cpp:440-457 | the window's will-close handler runs when it has one |
| ShellLib.Shell.OnWindowClose | src/shell/lib/lib.cpp:459-485 | the close handler runs, then the window's webserver, if any, leaves the registry and is stopped |
| ShellLib.Shell.OnProcessWillQuit | src/shell/lib/lib.cpp:487-499 | the application's will-quit handler runs when it has one |
| ShellLib.Shell.OnProcessQuit | src/shell/lib/lib.cpp:501-512 | the application's quit handler runs when it has one |
| ShellMain.FirstUnknown | src/shell/app/main.cpp:144-158 | the position found holds a name the platform does not know, and every earlier name is known; none is found only when all are known |
| ShellMain.FillLoadOrder | src/shell/app/main.cpp:142-159 | the counter loop yields exactly the load order of the names: the first unknown name among the first `cap` is the error, otherwise each known name fills its slot and the rest stay empty |
| ShellMain.LoadOrderIgnoresOverflow | src/shell/app/main.cpp:146-147 | names past the array's size are never looked at: a longer list loads like its first `cap` names |
| ShellMain.LoadOrderAccepted | src/shell/app/main.cpp:144-158 | a load order is accepted exactly when its first `cap` names are all known, and then each slot holds its name's selector |
| ShellMain.LoadOrderNamesLibraries | src/shell/app/main.cpp:142-193 | an accepted load order makes the shell library try exactly the libraries the user named, in the order given, one per name |
| ShellMain.DefaultWindowsOrder | src/shell/app/main.cpp:56 | the default Windows order is accepted and tries the Edge library, then the IE11 library |
| ShellMain.IconSlots | src/shell/app/main.cpp:195-205 | the icon array has exactly the array's size |
| ShellMain.FillIcons | src/shell/app/main.cpp:195-205 | the loop fills the first icons given, in order, up to the array's size, and leaves the other slots empty |
| ShellMain.IconsReachNucleus | src/shell/app/main.cpp:195-205 | the nucleus's selection of set slots is exactly the first `cap` icons given, in order |
| ShellMain.ChannelDecidesClosing | src/shell/app/main.cpp:324-348 | with a channel, closing a window is prevented and announced to the controller; without one nothing is prevented or sent; message and quit handlers never prevent |
| ShellMain.OnMessage | src/shell/app/main.cpp:327-341 | a window message never prevents anything, and is forwarded to the controller, unchanged and under its window, exactly when there is a channel |
| ShellMain.OnWillClose | src/shell/app/main.cpp:331-344 | the close is prevented exactly when there is a channel, and then a close intent for that window is sent; otherwise nothing is sent |
| ShellMain.OnQuit | src/shell/app/main.cpp:207-223 | quitting never prevents anything and shuts the channel down exactly when there is one |
| ShellMain.FillDetails | src/shell/app/main.cpp:140-205 | the Windows, macOS and Unix load orders are filled in that order, the first rejected name being the error, then the icon set |
| ShellMain.RunApp | src/shell/app/main.cpp:85-130 | a parse error, `--help`, and `--dir` with `--url` each show the help and exit with 1 before anything else; with no location and no channel only Windows asks for a folder; exit 0 only after accepted details and a successful init, ending in the run loop |
| ShellMain.Launch | src/shell/app/main.cpp:132-365 | the channel is prepared before the details are checked; a rejected load order exits with 1; a failed init exits with 2 right after the init request, with the init-failure message; once initialised, pairs for `--size` and `--pos` and a successful create (or no location) exit with 0, and a failed create exits with 2; the library gets the details the options describe; with a channel it is activated exactly once, after the window and just before the run loop |
| ShellMain.ShowWindow | src/shell/app/main.cpp:231-365 | the screens are listed first; a `--size` or `--pos` that is not a pair exits with 1; the window requested has the URL over the directory over the folder selected, and forwards events to the channel exactly when there is one; with well-formed pairs, a failed create exits with 2 and the create-failure message, and a successful create or no location exits with 0, ending with the run loop |
| ShellMain.Shown | src/shell/app/main.cpp:403-407 | the Unix message box shows only printable characters and line feeds, never more than the message |
| ShellMain.ShownKeepsPrintable | src/shell/app/main.cpp:403-407 | a message of printable lines is shown unchanged |
| ShellMain.ShownIdempotent | src/shell/app/main.cpp:403-407 | filtering twice is filtering once |
| ShellMain.ShownAppend | src/shell/app/main.cpp:403-407 | filtering a concatenation filters each part |
| PathUtil.MergePairs | src/shell/lib/webserver/path_util.impl.h:25 | merging never lengthens the text, keeps its first character and introduces no character that was not there |
| PathUtil.MergeWithoutPairs | src/shell/lib/webserver/path_util.impl.h:31 | a text without a doubled separator is left as it is |
| PathUtil.MergeKeepsNoParentStep | src/shell/lib/webserver/path_util.impl.h:25 | merging separators never forms ".." |
| PathUtil.RunHalves | src/shell/lib/webserver/path_util.impl.h:25-31 | one left-to-right pass turns a run of n separators into (n + 1) / 2 of them, so three become two, and merges the rest of the text on its own |
| PathUtil.BackslashedNormalises | src/shell/lib/webserver/path_util.impl.h:22-24 | the converted text holds no '/', a text without '/' is unchanged, converting twice is converting once, and every '/' became a '\' while all other characters are kept in number |
| PathUtil.Join | src/shell/lib/webserver/path_util.impl.h:9-34 | the in-place loop and the merge give the platform's joined path |
| PathUtil.EmptyBase | src/shell/lib/webserver/path_util.impl.h:14-15 | an empty root returns the path unchanged |
| PathUtil.PathCatLength | src/shell/lib/webserver/path_util.impl.h:9-34 | the joined path is never longer than root and path together |
| PathUtil.WindowsHasNoSlash | src/shell/lib/webserver/path_util.impl.h:22-25 | on Windows a joined path holds no '/' |
| PathUtil.CleanJoin | src/shell/lib/webserver/path_util.impl.h:27-31 | a clean root and a clean absolute path are simply concatenated |
| PathUtil.TrailingSeparatorDropped | src/shell/lib/webserver/path_util.impl.h:19-20 | one trailing separator of the root is dropped before joining |
| PathUtil.PathCatKeepsNoParentStep | src/shell/lib/webserver/path_util.impl.h:9-34 | joining a root and a path without ".", ".." never creates ".." |
| PathUtil.JoinNoParentStep | src/shell/lib/webserver/path_util.impl.h:21 | two texts without ".." concatenate into one without, unless a dot meets a dot |
| HandleRequest.StripQuery | src/shell/webserver/handle_request.impl.h:73-77 | the result is the longest prefix without '?', ending exactly at the first '?' |
| HandleRequest.HandleRequest | src/shell/webserver/handle_request.impl.h:19-151 | every answer keeps the keep-alive and is 200, 400, 404 or 500; a 200 answers only a GET or HEAD of a legal target; a HEAD answer has no body (the lemmas below state each branch) |
| HandleRequest.OnlyGetAndHead | src/shell/webserver/handle_request.impl.h:61-63 | any method other than GET and HEAD gets "400 Unknown HTTP-method"; a 200 answers only GET or HEAD |
| HandleRequest.IllegalTargetRefused | src/shell/webserver/handle_request.impl.h:66-70 | an empty, relative or ".."-holding target is refused with 400, and only such a target |
| HandleRequest.QueryIsChecked | src/shell/webserver/handle_request.impl.h:66-77 | every target whose query part holds ".." is refused with 400, even when its part before the '?' is clean, since the target is checked before the query is cut |
| HandleRequest.QueryIgnored | src/shell/webserver/handle_request.impl.h:73-77 | a legal target is answered exactly as its part before the first '?' |
| HandleRequest.StripQueryIdempotent | src/shell/webserver/handle_request.impl.h:73-77 | a target without '?' is kept whole |
| HandleRequest.HeadMatchesGet | src/shell/webserver/handle_request.impl.h:85-149 | HEAD is answered with GET's status, type, length and keep-alive, and no body |
| HandleRequest.ResponseFraming | src/shell/webserver/handle_request.impl.h:24-58 | every answer keeps the request's keep-alive; a text answer's length is its text's |
| HandleRequest.ScriptServed | src/shell/webserver/handle_request.impl.h:80-104 | "/audience.js" with any query is the embedded script, with its length, without the file system |
| HandleRequest.StripQueryAt | src/shell/webserver/handle_request.impl.h:73-77 | the cut falls at the first '?' |
| HandleRequest.ServedPathStaysInRoot | src/shell/webserver/handle_request.impl.h:106-124 | a served file's path holds no "..", so a request cannot leave the document root; any other file answer is 200, 404 or 500 |
| HandleRequest.IndexNoParentStep | src/shell/webserver/handle_request.impl.h:110-111 | appending "index.html" adds no ".." |
| HandleRequest.MissingFileIs404 | src/shell/webserver/handle_request.impl.h:118-124 | a missing file is "404" naming the target; any other open error is 500 |
| StreamResolver.Resolve | src/nucleus/windows/edge/stream_resolver.h:17-37 | an empty, relative or ".."-holding URI path is refused with "illegal request target", and only such a path; otherwise the file is the base directory, a backslash and the path after its '/', every '/' a backslash |
| StreamResolver.ResolvedShape | src/nucleus/windows/edge/stream_resolver.h:30-37 | the file path is as long as base and URI path together, holds no '/', has the backslash right after the base, and keeps the base's other characters |
| StreamResolver.ResolvedStaysInBase | src/nucleus/windows/edge/stream_resolver.h:22-37 | with a base free of "..", an accepted URI path cannot leave it: the file path holds no ".." |
| WebsocketSession.Session.constructor | src/shell/lib/webserver/websocket_session.impl.h:27-33 | a new session has nothing queued, no write pending, and a read outstanding |
| WebsocketSession.Session.DoWrite | src/shell/lib/webserver/websocket_session.impl.h:132-153 | a write starts only when none is pending and a message is queued, and then with the queue's head; messages reach the socket in queue order |
| WebsocketSession.Session.QueueWrite | src/shell/lib/webserver/websocket_session.impl.h:66-74 | the message joins the tail; a write starts at once only when none was pending |
| WebsocketSession.Session.OnWrite | src/shell/lib/webserver/websocket_session.impl.h:155-177 | a completion clears the pending flag; a success starts the next queued write, a failure is logged and leaves the queue waiting |
| WebsocketSession.Session.OnRead | src/shell/lib/webserver/websocket_session.impl.h:101-130 | reading goes on exactly after a received message, which reaches the handler only while the context is alive and has one; a failed read is logged, a close is not |
| WebsocketSession.Session.Drained | src/shell/lib/webserver/websocket_session.impl.h:132-177 | with nothing pending and nothing queued, every message queued so far has been handed to the socket, in order, and every write has completed |
| ScopeGuard.RunsByPolicy | src/common/scope_guard.h:45 | the handlers run always under `always`, only while unwinding under `exception`, only on normal exit under `no_exception` |
| ScopeGuard.LogOf | src/common/scope_guard.h:49-59 | a handler is logged exactly when it throws |
| ScopeGuard.Failures | src/common/scope_guard.h:48-60 | at most one log line per handler |
| ScopeGuard.NoFailures | src/common/scope_guard.h:48-60 | handlers that all return log nothing |
| ScopeGuard.StackedReverses | src/common/scope_guard.h:31 | registering at the front reverses the order: the handler registered last runs first |
| ScopeGuard.RunStep | src/common/scope_guard.h:48-60 | running one more handler adds its number and its log line |
| ScopeGuard.Guard.constructor | src/common/scope_guard.h:20 | a guard starts with no handlers and the given policy, `always` by default |
| ScopeGuard.Guard.Add | src/common/scope_guard.h:28-39 | a stored handler goes to the front; when storing fails it runs at once (not under `no_exception`) and its own exception, or else the store failure, is passed on |
| ScopeGuard.Guard.Dismiss | src/common/scope_guard.h:64-67 | every handler is forgotten and nothing runs |
| ScopeGuard.Guard.Destroy | src/common/scope_guard.h:41-62 | when the policy allows, every handler runs front to back and each throwing one is logged without stopping the rest; otherwise nothing runs |
| ScopeGuard.RunHandlers | src/common/scope_guard.h:48-60 | the loop runs every handler in order and logs exactly the failures |
| MemoryScope.Cell.constructor | src/common/memory_scope.h:17 | a single object holds the value it was initialised with |
| MemoryScope.Releases | src/common/memory_scope.h:14-28 | one release handler per allocation |
| MemoryScope.ReleasesInReverse | src/common/memory_scope.h:5-38 | the releases run in reverse order of allocation and log nothing |
| MemoryScope.ReleaseAt | src/common/memory_scope.h:18 | the release at each position frees the allocation counted from the newest |
| MemoryScope.Scope.constructor | src/common/memory_scope.h:11 | a new scope has a fresh `always` guard and no allocations |
| MemoryScope.Scope.RegisterRelease | src/common/memory_scope.h:18 | the newest allocation's release goes to the front of the guard |
| MemoryScope.Scope.Alloc | src/common/memory_scope.h:14-20 | a fresh value-initialised object, its release registered |
| MemoryScope.Scope.AllocArray | src/common/memory_scope.h:22-28 | a fresh array of `size` value-initialised elements, its release registered |
| MemoryScope.Scope.AllocString | src/common/memory_scope.h:30-37 | a fresh array one longer than the text, holding the text and a final zero |
| MemoryScope.Scope.Close | src/common/memory_scope.h:5-38 | at the end of the scope every allocation is released, newest first, and nothing is logged |
| Icons.LoadIcons | src/nucleus/windows/shared/icons.cpp:26-46 | the loop collects exactly the loadable icons, in slot order |
| Icons.LoadableExactly | src/nucleus/windows/shared/icons.cpp:29-46 | an icon is collected exactly when its slot is set and its file loads, once, in slot order, with the loaded size |
| Icons.InsertByWidth | src/nucleus/windows/shared/icons.cpp:61-64 | insertion adds exactly the one icon |
| Icons.InsertKeepsDescending | src/nucleus/windows/shared/icons.cpp:61-64 | insertion keeps the order widest first |
| Icons.SortByWidth | src/nucleus/windows/shared/icons.cpp:61-64 | the sort is a permutation ordered widest first |
| Icons.LastFit | src/nucleus/windows/shared/icons.cpp:70-80 | the index found meets both thresholds and no later icon does; none is found only when no icon does |
| Icons.PickIcons | src/nucleus/windows/shared/icons.cpp:67-80 | the loop picks, for the small and the large thresholds, the last fitting icon or the first |
| Icons.PickIsChosen | src/nucleus/windows/shared/icons.cpp:61-80 | the pick is a loaded icon; when one fits, a fitting one no wider than any other fitting one; otherwise a widest one |
| Icons.LastFitIsNarrowest | src/nucleus/windows/shared/icons.cpp:70-80 | in width order the last fitting icon is the narrowest that fits |
| Icons.NoFitIsWidest | src/nucleus/windows/shared/icons.cpp:67-68 | with none fitting, the first icon in width order is a widest one |
| Icons.LoadIconHandles | src/nucleus/windows/shared/icons.cpp:10-91 | no icon when none loads; otherwise small and large picks meeting that promise |
| Ping.WordSum | examples/ping/backend/ping.cpp:154-157 | the word sum is bounded by 65536 per byte |
| Ping.PackageChecksum | examples/ping/backend/ping.cpp:148-162 | the loop computes the package's 16-bit checksum: the complement of the folded word sum |
| Ping.FoldIsOnesComplementSum | examples/ping/backend/ping.cpp:158-159 | the two folds give the ones'-complement sum of RFC 1071: zero only for a zero sum, otherwise the sum modulo 0xFFFF in 1..0xFFFF |
| Ping.ChecksumVerifies | examples/ping/backend/ping.cpp:148-162 | a package checksummed with its field at zero, then given that checksum, sums to zero at the receiver |
| Ping.Message | examples/ping/backend/ping.cpp:33 | the message fills the package after the header |
| Ping.Unsummed | examples/ping/backend/ping.cpp:83-90 | the package before its checksum is 64 bytes |
| Ping.Package | examples/ping/backend/ping.cpp:83-91 | the package as sent is 64 bytes |
| Ping.PackageIsValid | examples/ping/backend/ping.cpp:83-91 | a package as sent passes the receiver's checksum test and carries type echo, code 0, its sequence number and the message |
| Ping.MessageContents | examples/ping/backend/ping.cpp:87-90 | the message is '0', '1', ... one per byte, and a final zero |
| Ping.UnsummedLayout | examples/ping/backend/ping.cpp:83-90 | byte by byte: type, code, zero checksum, identifier and sequence little-endian, zero header rest, then the message |
| Ping.PreparePackage | examples/ping/backend/ping.cpp:83-91 | the array filled in place is exactly the package as sent |
| Ping.PreparePackages | examples/ping/backend/ping.cpp:80-91 | turn `k` sends the package for sequence number `k` modulo 65536, and every package passes the checksum test |

The compiled twins `integrations/backend/nodejs/index.js` and
`frontend/index.js` run the same logic as their TypeScript sources and are
covered by the same members; the rows above cite the TypeScript lines, and
`NodeClient.SpreadArrays` and `NodeClient.SpreadFormMatchesSource` tie the
one construct that differs (the compiled array spread) to the source form.
The older `src/webapp/messaging/edge.js` is the same `WebviewBridge.Bridge`
with an incoming queue that accepts any value and a silent second
installation.

## Left out

- NucleusRegistry.Registry.AllocateHandle: requires fewer than 65535 live windows; with every non-zero handle in use the source's search loop never ends, and the model does not represent a loop that never ends.
- NucleusRegistry.Registry.WindowCreate: carries the same bound on live windows, for the same reason.
- Threads, locks and the dispatch to the main thread. This covers the libuv loop thread, the async handles and mutexes of `src/shell/app/channel.cpp`, and the thread-lock and dispatch macros of `src/shell/lib/lib.cpp`. Every handler is one atomic step of the model.
- Library callbacks that re-enter the channel's emitters while a command runs are not modelled; a command's effects are the calls it records.
- Sockets, pipes, `child_process.spawn`, readline and process exit in the Node.js client. A write is a recorded line, `Date.now()` and `Math.random()` are parameters, and promises are settled-state records.
- The debug logging of `integrations/backend/nodejs/index.ts` lines 148-153 and every trace and log call elsewhere, except the error log of the scope guard and the websocket session.
- JSON parsing (nlohmann::json, `JSON.parse`) is a parameter `parse`. The model prints JSON itself, with integers only.
- Floating-point numbers are integers in the model. Window geometry is left out: the default size, centring and clamping of `src/shell/app/channel.cpp` lines 321-358 and of `src/shell/app/main.cpp` lines 263-302.
- `ShellMain.RunApp` records that the window request uses the derived size and position, and the values themselves are left out, because they are floating-point geometry.
- The JSON results of `screen_list` and `window_list` are built from what the library returns. The library is a parameter, so the exact fields are not modelled.
- UTF-8/UTF-16 conversions (codecvt, `utf8_to_utf16`) are identity: strings are sequences of characters.
- `channel_prepare` is declared but not defined in `src/shell/app/channel.cpp`, so preparing the channel is only recorded as a step.
- RuntimeChannel.Channel: a peer that is closing is treated as a missing peer. Every close in the source is followed by resetting the peer, so the two states behave alike for the queues.
- The sizes `AUDIENCE_*_ENTRIES` of the fixed arrays come from headers that are not part of this model; they are parameters (`cap`, `Capacities`).
- Dynamic loading is an oracle `libraries`: whether a library loads, which entry points it exports, and whether its init succeeds. `dir_of_exe()`, `FreeLibrary` and `dlclose` are not modelled.
- The webserver itself is not modelled: starting, stopping and posting through it are recorded calls, and a message it receives enters as a call of `ShellLib.Shell.OnWebserverMessage`. `ShellLib.Shell.CreateWindow` takes the port it chose and the handle the nucleus returned as parameters.
- The exception wrapper `SAFE_FN` is not modelled separately: the unsupported web-app type that throws in `_audience_window_create` is modelled by its outcome, the zero handle.
- The `catch` blocks of `main` (`src/shell/app/main.cpp` lines 367-376), which show an error and exit with 2 when an exception escapes, are not modelled: the model's steps do not throw.
- WebsocketSession.Session.constructor: starts with a read outstanding. The handshake (`do_accept`, `on_accept`) is folded into it, and a failed handshake, which never starts reading, is not modelled.
- The asynchronous completions of the websocket session are method calls, made by whoever drives the model.
- The `scope_guard` constructor that takes a first handler is the plain constructor followed by `Add`. The copy and move constructors are left out.
- MemoryScope.Scope.RegisterRelease: assumes storing the release handler succeeds; a failing store in `alloc` would free the object at once and rethrow, which the model leaves out.
- Icons.SortByWidth: sorts a sequence by insertion, not in place. The order of icons of equal width that `std::sort` gives is not fixed, so `Icons.LastFitIsNarrowest` and `Icons.NoFitIsWidest` state what holds for every such widest-first order.
- Icons.LoadIconHandles: returns the picked icons. Bitmap loading and the system metrics are parameters, and turning a pick into a handle with `GetHICON`, and that call's failure, are left out.
- NodeClient.CommandFor: the `window_update_position` arguments are the object with keys handle, x, y, width and height, in that order. The source spreads the caller's position object after `handle`, so the caller's key order and any extra keys, including a later `handle` that overrides the first, are kept there and not in the model.
- NodeClient.Client.ProcessEvent: whether a callback throws is the parameter `throws`. The exception itself is the fixed text `CallbackThrew`, not the callback's own error.
- The Windows start of `main` (`src/shell/app/main.cpp` lines 30-37) is not modelled: `OleInitialize` is a platform call, and its failure, which shows "Could not initialize COM/OLE." and exits with 2 before the options are read, is not part of `ShellMain.RunApp`.
- `RuntimeChannel.Channel.ChannelShutdown` does not model joining the loop thread and running the loop's last iterations on the calling thread, since threads are left out.
- Ping.PackageChecksum: assumes a little-endian host and takes the ICMP header size as a parameter of at least 8 bytes (8 for Linux `icmphdr`, more for macOS `struct icmp`). The Windows `ICMPHeader` layout and big-endian hosts are not modelled.
- The ping loop's socket, its sending and receiving, the reply check, the timing and the stop signal are left out. Only the packages that the loop prepares are modelled (`Ping.PreparePackages`).
- The headers that only declare types (`audience_details.h`, `audience_api.h`, `nucleus.h`) and the platform webview code are not part of this model.
