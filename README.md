# Touchpad receivers, modelled in Dafny

This project models the Python programs that receive the touchpad card's JSON messages:

- **The LG webOS pointer bridge** (`WebOSPointerBridge`). It turns touchpad messages into commands for the TV's pointer socket (`type:move`, `type:scroll`, `type:click`, `type:button`, `type:text`), into IME messages, or into requests on the TV's session socket.
  - It splits large moves into at most 64 packets of about 40 units each.
  - It accumulates scrolls and rounds them.
  - It pairs with the TV (the `register` handshake).
  - It falls back from plain `ws://` to TLS on the next port.
  - It tries the IME socket, then an `insertText` request, and only then the pointer socket for text.
- **The Windows injector** (`InputInjector`). It turns the same messages into `SendInput` mouse events and a `keybd_event` Control tap, and it folds scroll deltas into whole 120-unit wheel ticks.
- **The Home Assistant add-on launcher**. It checks the `tvs` option list and fills in each TV's defaults.
- **The tray launcher's log plumbing**. This is a bounded queue of 1000 log lines that drops its oldest entry when full, plus the log window that drains it line by line.

Files (modules):

| file | module | what it holds |
|---|---|---|
| `wrappers.dfy` | `Wrappers` | `Option`, `Result` |
| `rounding.dfy` | `Rounding` | Python's `round` (half to even) and `int()` (truncation) on exact reals |
| `text.dfy` | `Text` | decimal formatting and parsing of integers; `split("\n")` |
| `json.dfy` | `Json` | decoded JSON values; truthiness, `dict.get`, `float()`, `int()` |
| `pointer_chunks.dfy` | `PointerChunks` | `_chunk_pointer_delta` and its properties |
| `pointer_commands.dfy` | `PointerCommands` | the pointer-socket command strings; key and volume tables |
| `webos_bridge.dfy` | `WebOSBridge` | the bridge class: sending, pairing, connection flags, dispatch |
| `input_injector.dfy` | `InputInjection` | the Windows injector class and its dispatch |
| `addon_options.dfy` | `AddonOptions` | `load_options` and `build_tv_configs` |
| `tray_log.dfy` | `TrayLog` | the bounded log queue, `emit`, `_append`, `_drain_queue` |

Sockets are modelled by whether they are open. What each class sends is recorded in a `seq` field:

- the bridge records `pointerSent`, `sessionSent` and `imeSent`;
- the injector records `events`.

What the TV answers is supplied as input:

- a list of replies to the pairing request;
- whether a connection attempt succeeds;
- whether an IME or insert/delete request is accepted (`TvReplies`, `Handshake`, `ImeConnect`).

Floating-point values are modelled as exact reals.

## Model

| member | source | states |
|---|---|---|
| Rounding.RoundHalfEven | addon/webos-pointer-bridge/webos_pointer_bridge.py:140-141 | `round`: the result is within 1/2 of x, and an exact tie goes to the even neighbour |
| Rounding.Trunc | backend/ws_touchpad.py:101-102 | `int()` of a float truncates toward zero: result ≤ x < result+1 for x ≥ 0, and result-1 < x ≤ result for x < 0 |
| Text.IntToString | addon/webos-pointer-bridge/webos_pointer_bridge.py:151 | the decimal text of an integer in an f-string is non-empty and has no newline |
| Text.IntRoundTrip | addon/webos-pointer-bridge/webos_pointer_bridge.py:151 | parsing an integer's decimal text gives the integer back |
| Json.FloatField | addon/webos-pointer-bridge/webos_pointer_bridge.py:87-88 | `float(data.get(key, 0))`: a missing key reads as 0, a number as itself and a boolean as 1.0 or 0.0; null, arrays and objects are rejected (so are strings, see Left out) |
| PointerChunks.Steps | addon/webos-pointer-bridge/webos_pointer_bridge.py:131-132 | the packet count is 1..64; it is 1 exactly when both axes are within 40; below 64 packets, the packets are enough to carry the larger axis at 40 per packet, and one fewer would not be |
| PointerChunks.ChunksUpToSums | addon/webos-pointer-bridge/webos_pointer_bridge.py:139-146 | after k iterations, the packets sum to position k on each axis, and there are at most k of them |
| PointerChunks.ChunksUpToFit | addon/webos-pointer-bridge/webos_pointer_bridge.py:139-146 | after k iterations, no packet is (0,0), and each has its axis's sign and bounded size |
| PointerChunks.ChunksSum | addon/webos-pointer-bridge/webos_pointer_bridge.py:133-147 | the packets add up exactly to the rounded target on both axes |
| PointerChunks.ChunksShape | addon/webos-pointer-bridge/webos_pointer_bridge.py:131-147 | 1 ≤ packets ≤ steps; a move within 40 on both axes, (0,0) included, is sent as the single packet (dx, dy); a split move has no (0,0) packet; every packet component has the sign of its axis (or is 0), and it is within 40 when the target did not hit the 64-packet cap |
| PointerChunks.ChunkPointerDelta | addon/webos-pointer-bridge/webos_pointer_bridge.py:128-147 | the loop over `prev_x`/`prev_y` returns exactly the packets of the specification `Chunks`, whose sum and shape are proved above |
| PointerCommands.MotionCommands | addon/webos-pointer-bridge/webos_pointer_bridge.py:150-152 | one command per packet, in packet order |
| PointerCommands.MotionCommandLines | addon/webos-pointer-bridge/webos_pointer_bridge.py:151 | a move or scroll command is exactly the lines `type:…`, `dx:…`, `dy:…` and a blank terminator |
| PointerCommands.MotionRoundTrip | addon/webos-pointer-bridge/webos_pointer_bridge.py:151 | reading a move or scroll command back gives its kind and both integers |
| PointerCommands.ButtonCommandLines | addon/webos-pointer-bridge/webos_pointer_bridge.py:238 | a button command is `type:button`, `name:<N>` and the blank terminator |
| PointerCommands.EscapeNewlines | addon/webos-pointer-bridge/webos_pointer_bridge.py:181 | `replace("\n", "\\n")` leaves no newline and never shortens the text |
| PointerCommands.TextCommandLines | addon/webos-pointer-bridge/webos_pointer_bridge.py:181-182 | whatever the text, the text command is exactly `type:text`, one `text:` line and the terminator |
| PointerCommands.TextCommandNotInjective | addon/webos-pointer-bridge/webos_pointer_bridge.py:181 | backslashes are not escaped, so a newline and a literal backslash-n give the same command |
| PointerCommands.KeyTranslation | addon/webos-pointer-bridge/webos_pointer_bridge.py:240-268 | `escape`/`back` press BACK, `delete`/`backspace` press BACKSPACE, `settings` presses MENU; a key presses a button exactly when it is in the table |
| PointerCommands.VolumeTranslation | addon/webos-pointer-bridge/webos_pointer_bridge.py:270-276 | `up`/`down`/`mute` give VOLUMEUP/VOLUMEDOWN/MUTE, and nothing else gives a button |
| WebOSBridge.OriginHeader | addon/webos-pointer-bridge/webos_pointer_bridge.py:443-448 | never an empty header; an empty origin suppresses it; a non-empty origin is sent as is; with no origin, the LG origin is sent exactly when a default is asked for |
| WebOSBridge.CliOrigin | addon/webos-pointer-bridge/webos_pointer_bridge.py:472-478 | the command line's origin after `or None`: never "", and a non-empty value is kept (see Findings) |
| WebOSBridge.EmptyOriginFlagSendsDefault | addon/webos-pointer-bridge/webos_pointer_bridge.py:497 | as written, an empty `--origin` cannot be told apart from an omitted one and still sends the LG origin |
| WebOSBridge.IntendedCliOrigin | addon/webos-pointer-bridge/webos_pointer_bridge.py:472-478 | the option's value unchanged: None only when omitted, "" when given empty |
| WebOSBridge.IntendedEmptyOriginSkipsHeader | addon/webos-pointer-bridge/webos_pointer_bridge.py:443-448 | with the intended reading, an empty `--origin` sends no Origin header on any socket, as the option's help says |
| WebOSBridge.FallbackEndpoint | addon/webos-pointer-bridge/webos_pointer_bridge.py:310-318 | a TLS failure is final; a plain failure is retried with TLS on the next port |
| WebOSBridge.RegisterPayload | addon/webos-pointer-bridge/webos_pointer_bridge.py:359-377 | `client-key` is present exactly when a key is known, and then it is that key; the pairing type is PROMPT without forced pairing |
| WebOSBridge.KeptKey | addon/webos-pointer-bridge/webos_pointer_bridge.py:386-388 | a non-empty new key from the TV replaces the old one; otherwise the old key stays |
| WebOSBridge.ClassifyFrame | addon/webos-pointer-bridge/webos_pointer_bridge.py:80-114 | the whole if/elif chain: undecodable frames are skipped; a message raises exactly when it is not an object or is a move/scroll whose dx or dy `float()` rejects; move and scroll carry `float(dx)`, `float(dy)`; `click` and `double_click` exactly on their `t`; text exactly when `text` is a non-empty string, carrying it; key and volume exactly when `key`/`action` is a string, carrying it; `right_click`, `down`, `up`, `wake` and every other `t`, or a text/key/volume message without its string, are ignored |
| WebOSBridge.KeyCommands | addon/webos-pointer-bridge/webos_pointer_bridge.py:240-268 | a backspace handled by an IME delete presses nothing; otherwise a button is pressed exactly for keys in the table |
| WebOSBridge.Bridge.constructor | addon/webos-pointer-bridge/webos_pointer_bridge.py:42-66 | no key, no sockets, IME not failed, scroll remainders 0, nothing sent |
| WebOSBridge.Bridge.SendPointer | addon/webos-pointer-bridge/webos_pointer_bridge.py:118-126 | the payload is appended to what the pointer socket received |
| WebOSBridge.Bridge.SendMotion | addon/webos-pointer-bridge/webos_pointer_bridge.py:150-152 | the loop sends exactly the commands of the packets, in order |
| WebOSBridge.Bridge.SendMove | addon/webos-pointer-bridge/webos_pointer_bridge.py:149-152 | the rounded move, chunked, is sent as `type:move` commands and nothing else |
| WebOSBridge.Bridge.SendScroll | addon/webos-pointer-bridge/webos_pointer_bridge.py:154-169 | the new state is `ScrollForwarded` of the old one: the remainders, the sent units and the `type:scroll` commands are those that function's contract states, and nothing else changes |
| WebOSBridge.Bridge.AccumulateScroll | addon/webos-pointer-bridge/webos_pointer_bridge.py:156-163 | the whole units are `ScrollUnits` (round half to even of the remainder plus the downscaled delta) and the new remainders `ScrollRemainder` of the same amounts |
| WebOSBridge.ScrollRemainder | addon/webos-pointer-bridge/webos_pointer_bridge.py:156-163 | the remainder left on an axis is within 1/2, and with the whole units sent it makes up the old remainder plus the downscaled delta |
| WebOSBridge.ScrollCommands | addon/webos-pointer-bridge/webos_pointer_bridge.py:165-169 | a scroll sends no command exactly when both whole parts are 0 |
| WebOSBridge.ScrollForwarded | addon/webos-pointer-bridge/webos_pointer_bridge.py:154-169 | each remainder ends within 1/2; on each axis the sent units plus the new remainder equal the old remainder plus the downscaled delta; nothing is sent while both whole parts are 0, otherwise exactly the chunks' `type:scroll` commands; the session, the IME and their logs are untouched |
| WebOSBridge.Bridge.SendClick | addon/webos-pointer-bridge/webos_pointer_bridge.py:172-173 | one `type:click` command |
| WebOSBridge.Bridge.SendButton | addon/webos-pointer-bridge/webos_pointer_bridge.py:233-238 | one `type:button` command with the name |
| WebOSBridge.Bridge.TeardownPointer | addon/webos-pointer-bridge/webos_pointer_bridge.py:407-426 | all three sockets are gone and the IME failure flag is cleared |
| WebOSBridge.Bridge.TeardownIme | addon/webos-pointer-bridge/webos_pointer_bridge.py:428-434 | the IME socket is gone and nothing else changes |
| WebOSBridge.Bridge.ConnectIme | addon/webos-pointer-bridge/webos_pointer_bridge.py:333-356 | nothing without a session; otherwise one IME request; a socket path opens the IME, a missing path changes nothing, a failure closes it and marks it failed |
| WebOSBridge.Bridge.EnsureIme | addon/webos-pointer-bridge/webos_pointer_bridge.py:287-293 | once failed or while open, nothing is tried or sent; otherwise as `ConnectIme` |
| WebOSBridge.Bridge.ConnectSession | addon/webos-pointer-bridge/webos_pointer_bridge.py:295-318 | the configured endpoint when it answers; else, for plain ws only, TLS on the next port; a session is opened exactly when one of them answered, and an existing session is kept |
| WebOSBridge.Bridge.Register | addon/webos-pointer-bridge/webos_pointer_bridge.py:358-398 | one register message carrying the old key; PROMPT responses are skipped; the first `registered` reply succeeds and keeps the key as `KeptKey` says; any other reply fails and leaves the key |
| WebOSBridge.SessionRequests | addon/webos-pointer-bridge/webos_pointer_bridge.py:306-321 | nothing is sent when the session does not open; otherwise the pairing request with the current key comes first, and the pointer-socket request is sent exactly when pairing succeeded |
| WebOSBridge.Bridge.ConnectPointer | addon/webos-pointer-bridge/webos_pointer_bridge.py:295-331 | the pointer socket opens exactly when a session was opened, pairing succeeded on the replies, the TV returned a socket path and connecting to that path succeeded; the session is open exactly when it was or it opened; the session log grows by `SessionRequests` (the pairing request with the old key, then the pointer-socket request once paired); after pairing the client key is `KeptKey` of the old key and the `registered` reply's key, otherwise it is unchanged |
| WebOSBridge.Bridge.EnsurePointer | addon/webos-pointer-bridge/webos_pointer_bridge.py:278-285 | a live pointer socket changes nothing; otherwise everything is torn down and rebuilt: the pointer opens on the same condition as `ConnectPointer`, the session is open exactly when it reopened, the session log grows by `SessionRequests` and then the IME request on success, the client key follows pairing as in `ConnectPointer`, and the IME state is that of one fresh `_connect_ime` on success and cleared on failure |
| WebOSBridge.Bridge.SendTextIme | addon/webos-pointer-bridge/webos_pointer_bridge.py:221-231 | the text goes on the IME socket exactly when the IME is (or becomes) open and the send succeeds; a failed send closes the IME |
| WebOSBridge.Bridge.SendTextRequest | addon/webos-pointer-bridge/webos_pointer_bridge.py:184-201 | an insertText request is sent exactly when there is a session, and it succeeds only when the TV accepts it |
| WebOSBridge.Bridge.SendImeDelete | addon/webos-pointer-bridge/webos_pointer_bridge.py:203-219 | a deleteCharacters(1) request is sent exactly when there is a session, and it succeeds only when the TV accepts it |
| WebOSBridge.Bridge.SendText | addon/webos-pointer-bridge/webos_pointer_bridge.py:175-182 | the text goes out by exactly one route, IME first, then insertText, then the escaped pointer command; the new state is `TextForwarded` of the old one |
| WebOSBridge.TextForwarded | addon/webos-pointer-bridge/webos_pointer_bridge.py:175-182 | exactly one route is taken: the IME (its log gains the insert and the IME is left open), else an insertText request (the session log ends with it), else the escaped `type:text` command; an open IME whose send succeeds always takes the text; a closed IME that failed before is not tried again; the logs only grow; the session and the remainders are untouched |
| WebOSBridge.Bridge.SendKey | addon/webos-pointer-bridge/webos_pointer_bridge.py:240-268 | backspace is first tried as an IME delete (only with a session); the pointer commands are `KeyCommands`; the new state is `KeyForwarded` of the old one |
| WebOSBridge.KeyForwarded | addon/webos-pointer-bridge/webos_pointer_bridge.py:240-268 | only a backspace with a session sends deleteCharacters(1); when the TV accepts it no button is pressed; the pointer commands are `KeyCommands`; the IME and the remainders are untouched |
| WebOSBridge.Bridge.SendVolume | addon/webos-pointer-bridge/webos_pointer_bridge.py:270-276 | the mapped volume button, or nothing |
| WebOSBridge.Bridge.HandleMessage | addon/webos-pointer-bridge/webos_pointer_bridge.py:80-114 | raises exactly on a message that raises; the new state is `Forward` of the old one for the classified request, which spells out each branch: skipped, raising and ignored messages change nothing; a move sends its chunked `type:move` commands; a scroll is `ScrollForwarded`; `click` one click and `double_click` exactly two; text is `TextForwarded`; keys send `KeyCommands` and volume the mapped button; pointer gestures touch no other socket |
| WebOSBridge.Bridge.Dispatch | addon/webos-pointer-bridge/webos_pointer_bridge.py:86-112 | the branch for a classified request fails exactly on a raising one, and the new state is `Forward` of the old one |
| WebOSBridge.Forward | addon/webos-pointer-bridge/webos_pointer_bridge.py:80-114 | for any request: the session flag is kept; the three logs only grow; skipped, raising and ignored requests change nothing; only a scroll moves the remainders, keeping them within 1/2; only text touches the IME; only text and keys write to the session |
| WebOSBridge.Bridge.HandleClient | addon/webos-pointer-bridge/webos_pointer_bridge.py:77-116 | messages are handled in order: none of the handled ones raises, the one at the stop index raises (or all were handled), and the new state is `ForwardAll` of the handled messages |
| WebOSBridge.ForwardAllStep | addon/webos-pointer-bridge/webos_pointer_bridge.py:80-114 | forwarding one more message extends the fold over the client's messages by one `Forward` step |
| WebOSBridge.ForwardAllExtends | addon/webos-pointer-bridge/webos_pointer_bridge.py:77-116 | over a whole client the session flag is kept, the logs only grow and each remainder stays within 1/2 |
| WebOSBridge.FirstRaise | addon/webos-pointer-bridge/webos_pointer_bridge.py:77-116 | the first message from a position on that raises, or the end: no message before it raises, and the one at it does |
| WebOSBridge.ServeStops | addon/webos-pointer-bridge/webos_pointer_bridge.py:77-116 | serving a client stops at the first message that raises and leaves the state `ForwardAll` of the messages before it |
| InputInjection.WheelSteps | backend/ws_touchpad.py:101-105 | whole ticks truncated toward zero: the remainder is under one tick and has the sign of the accumulated value (or is 0) |
| InputInjection.WheelRemainder | backend/ws_touchpad.py:104-105 | ticks × 120 plus the remainder give back the accumulated amount, and the remainder is under one tick |
| InputInjection.WheelEvents | backend/ws_touchpad.py:107-110 | one event per non-zero tick count, none exactly when both are 0: the vertical WHEEL event with `steps_y × 120` first, the horizontal HWHEEL event with `steps_x × 120` last; they never touch the left button |
| InputInjection.InputInjector.constructor | backend/ws_touchpad.py:88-91 | the scale is kept, remainders 0, no events |
| InputInjection.InputInjector.Inject | backend/ws_touchpad.py:79-84 | the event is appended to what Windows received |
| InputInjection.InputInjector.Move | backend/ws_touchpad.py:93-94 | exactly one MOVE event by the rounded deltas; the left button keeps its state; the new state is `Handle` of the old one for this message |
| InputInjection.InputInjector.Scroll | backend/ws_touchpad.py:96-110 | the new state is `Handle` of the old one for the scroll; ticks × 120 plus the new remainder equal the old remainder plus the scaled delta; the remainder stays under one tick and is `WheelRemainder` of the accumulated amount; the events are `WheelEvents` of the ticks; the left button keeps its state |
| InputInjection.InputInjector.Accumulate | backend/ws_touchpad.py:98-105 | the tick counts are `WheelSteps` and the new remainders `WheelRemainder` of the old remainders plus the scaled deltas |
| InputInjection.InputInjector.SendWheel | backend/ws_touchpad.py:107-110 | the events sent are exactly `WheelEvents` of the tick counts |
| InputInjection.InputInjector.Click | backend/ws_touchpad.py:112-114 | exactly LEFTDOWN, LEFTUP; the left button ends released; the new state is `Handle` of the old one for this message |
| InputInjection.InputInjector.RightClick | backend/ws_touchpad.py:116-118 | exactly RIGHTDOWN, RIGHTUP; the left button keeps its state; the new state is `Handle` of the old one for this message |
| InputInjection.InputInjector.LeftDown | backend/ws_touchpad.py:120-121 | one LEFTDOWN; the left button is held; the new state is `Handle` of the old one for this message |
| InputInjection.InputInjector.LeftUp | backend/ws_touchpad.py:123-124 | one LEFTUP; the left button is released; the new state is `Handle` of the old one for this message |
| InputInjection.InputInjector.DoubleClick | backend/ws_touchpad.py:126-129 | two clicks in order; the left button ends released; the new state is `Handle` of the old one for this message |
| InputInjection.InputInjector.Wake | backend/ws_touchpad.py:131-136 | MOVE(2,0), MOVE(-2,0), Control down and up; the net horizontal movement is 0 and the left button is untouched; the new state is `Handle` of the old one for this message |
| InputInjection.WiggleReturns | backend/ws_touchpad.py:133-134 | the wake wiggle leaves the summed horizontal movement unchanged |
| InputInjection.Classify | backend/ws_touchpad.py:143-164 | the whole if/elif chain: undecodable frames are skipped; a message raises exactly when it is not an object or is a move/scroll whose dx or dy `float()` rejects; move and scroll carry `float(dx)`, `float(dy)` (a move without dx/dy is a move by (0,0)); click, double_click, right_click, down, up and wake exactly on their `t`; any other `t` of an object is ignored |
| InputInjection.Emitted | backend/ws_touchpad.py:93-136 | the events each message sends: none when skipped, raising or ignored; one MOVE by the rounded deltas; `WheelEvents` of the accumulated ticks; LEFTDOWN, LEFTUP (twice for a double click); RIGHTDOWN, RIGHTUP; one LEFTDOWN; one LEFTUP; the wake events |
| InputInjection.Handle | backend/ws_touchpad.py:93-164 | after a message the events are the old ones followed by `Emitted`; only a scroll changes the remainders, which then stay under a tick and with the ticks sent make up the accumulated amount |
| InputInjection.InputInjector.HandleMessage | backend/ws_touchpad.py:143-164 | raises exactly on a message that raises; the new state is `Handle` of the old one for the classified message, so the events sent are exactly `Emitted`; click, double click and up leave the left button released, down holds it, and the rest keep its state |
| InputInjection.InputInjector.HandleClient | backend/ws_touchpad.py:139-173 | messages are handled in order: none of the handled ones raises, the one at the stop index raises (or all were handled), and the new state is `HandleAll` of the handled messages |
| InputInjection.HandleAllStep | backend/ws_touchpad.py:142-164 | handling one more message extends the fold over the client's messages by one `Handle` step |
| InputInjection.HandleAllExtends | backend/ws_touchpad.py:142-164 | over a whole client the events sent earlier stay a prefix and the remainders stay under a tick |
| InputInjection.HandleLeftButton | backend/ws_touchpad.py:112-129 | after click, double click or up the left button is released, after down it is held, and every other message keeps its state |
| InputInjection.FirstRaise | backend/ws_touchpad.py:139-164 | the first message from a position on that raises, or the end: no message before it raises, and the one at it does |
| InputInjection.ServeStops | backend/ws_touchpad.py:139-164 | serving a client stops at the first message that raises and leaves the state `HandleAll` of the messages before it |
| AddonOptions.MissingHostMessage | addon/webos-pointer-bridge/run_addon.py:37-38 | the error for a bad host is a single line |
| AddonOptions.MissingHostNamesEntry | addon/webos-pointer-bridge/run_addon.py:38 | the message starts with `TV entry ` followed by the entry's index, which reads back as that index |
| AddonOptions.LoadTvs | addon/webos-pointer-bridge/run_addon.py:24-30 | a missing or falsy `tvs` is an empty list, a list is returned as it is, and anything else is rejected |
| AddonOptions.OrDefault | addon/webos-pointer-bridge/run_addon.py:40-45 | `tv.get(key) or default`: a truthy value is kept and a falsy or missing one replaced |
| AddonOptions.EntryConfig | addon/webos-pointer-bridge/run_addon.py:35-62 | an entry is accepted exactly when it is an object with a good host and each truthy port is one `int()` accepts; a non-object fails with `EntryNotAnObject`, a bad host with `MissingHost`, a listen port `int()` rejects with `BadNumber` of `listen_port`, and otherwise a rejected TV port with `BadNumber` of `tv_port`; an accepted entry keeps its host; a falsy name gives `tv<idx+1>`, a falsy listen port `8777+idx` and a falsy TV port 3001, and a truthy port is `int()` of the value; `use_ssl` defaults to true only when absent or null; the origin is kept |
| AddonOptions.BuildTvConfigs | addon/webos-pointer-bridge/run_addon.py:33-63 | on success, one configuration per entry in order; on failure, all earlier entries were accepted and the error is the first rejected entry's own |
| AddonOptions.DefaultListenPortsDistinct | addon/webos-pointer-bridge/run_addon.py:41-43 | entries left on the default listen port get distinct, increasing ports |
| TrayLog.Retained | backend/touchpad_tray.py:55-64 | the queue stays within 1000; the new message is last; if the queue was not full nothing is removed, and if it was full exactly the oldest is removed, the rest keeping their order |
| TrayLog.EmitAllKeepsNewest | backend/touchpad_tray.py:55-64 | over any run of emissions, the queue holds exactly the newest up to 1000 messages, in order |
| TrayLog.LogQueue.constructor | backend/touchpad_tray.py:198 | an empty queue |
| TrayLog.LogQueue.PutNowait | backend/touchpad_tray.py:59 | `put_nowait` succeeds exactly below 1000 entries and then appends |
| TrayLog.LogQueue.GetNowait | backend/touchpad_tray.py:62 | `get_nowait` removes and returns the oldest entry; an empty queue gives nothing |
| TrayLog.QueueHandler.constructor | backend/touchpad_tray.py:51-53 | the handler holds the shared queue |
| TrayLog.QueueHandler.Emit | backend/touchpad_tray.py:55-68 | the queue becomes `Retained(old queue, msg)` and stays within its bound |
| TrayLog.Line | backend/touchpad_tray.py:130 | a message ending in a newline is kept, any other gets one; the result starts with the message and ends with a newline |
| TrayLog.LineIdempotent | backend/touchpad_tray.py:130 | applying the newline rule twice is the same as once |
| TrayLog.JoinedAppend | backend/touchpad_tray.py:138-144 | the text for two runs of messages is the two texts one after the other |
| TrayLog.JoinedSnoc | backend/touchpad_tray.py:138-144 | draining one more message appends exactly its line to the text |
| TrayLog.JoinedSplits | backend/touchpad_tray.py:126-144 | messages without newlines can be read back from the drained text, one per line |
| TrayLog.LogWindow.constructor | backend/touchpad_tray.py:74-85 | no window, empty text |
| TrayLog.LogWindow.Append | backend/touchpad_tray.py:126-132 | with a text widget, the message's line is appended; without one nothing happens |
| TrayLog.LogWindow.DrainQueue | backend/touchpad_tray.py:134-149 | with a window, the queue ends empty and its messages are appended in FIFO order; without one nothing changes |
| TrayLog.LogWindow.Show | backend/touchpad_tray.py:91-110 | the first show creates the text with the log-file line, then everything queued; a later show changes neither text nor queue |
| TrayLog.LogWindow.Destroy | backend/touchpad_tray.py:116-120 | no window and no text |

## Left out

- Network I/O is not modelled: the WebSocket server and clients, TLS contexts, `send`/`recv`, and the `asyncio.sleep` pauses between the clicks of a double click. Socket and TV outcomes are inputs.
- `_send_pointer` is modelled with the pointer socket up and every send succeeding. The reconnect it triggers through `ensure_pointer` is modelled by `EnsurePointer` on its own. A failed send's teardown is not modelled, nor is the `ConnectionError` raised out of `_send_pointer` when no pointer socket can be obtained; `ConnectPointer` returns false in that case.
- The `_connect_lock` and concurrent clients are not modelled. Each client's messages are handled one after another.
- `_is_closed` is not modelled. It inspects a library object; the model takes "the socket is still alive" as an input of `EnsurePointer`. `EnsureIme` has no such input: it treats an IME socket it holds as alive, whereas `ensure_ime` (webos_pointer_bridge.py:291) reconnects an IME socket that has closed.
- `_load_client_key`, `_save_client_key`, reading `/data/options.json`, the log `FileHandler` and `get_log_file` are not modelled; they are file I/O. `KeptKey` captures the in-memory key update.
- The argparse `main` functions, `start`, `run_bridge`'s crash-retry loop and the add-on's `main` are not modelled; they are process plumbing.
- `SendInput` and `keybd_event` are foreign calls. Their effect is an `InputEvent` appended to `events`, and a failing `SendInput` (only logged) is not modelled.
- The Tk and pystray user interface is not modelled: window geometry, `hide`, `_on_unmap`, the tray icon, `ServerThread` and the 250 ms rescheduling of `_drain_queue`. `LogWindow.open` stands for the window and its text widget existing together.
- Rounding.RoundHalfEven, InputInjection.WheelSteps, WebOSBridge.Bridge.SendScroll and InputInjection.InputInjector.Scroll work on exact reals. IEEE-754 rounding error in `t * i / steps` and in the scroll accumulators is not modelled, nor are NaN and infinity (for which `round`/`int` raise).
- PointerChunks.Position: `round(target * i / steps)` is computed on the exact rational, not on the float quotient.
- Json.FloatField and Json.IntOf treat a string value as a conversion failure. Python's `float("1.5")` and `int("8080")` parse numerals; that parsing is not modelled.
- InputInjection.InputInjector.Move and InputInjection.InputInjector.Scroll do not model ctypes truncation of the event fields to 32 bits. `LONG` dx/dy and `DWORD` mouseData wrap silently, so a negative wheel amount reaches Windows as its 32-bit two's complement.
- `_send_button` with a list of names is not modelled; no caller passes a list.
- WebOSBridge.Bridge.Register: a reply sequence that runs out while the TV is still prompting ends as `AwaitingReply`, where the source would keep waiting on `recv`.
- WebOSBridge.Handshake: the pairing replies and the pointer-socket reply arrive on one socket in the source; the model supplies them separately.
- WebOSBridge.FallbackEndpoint: the source picks 3001 for port 3000 and port+1 otherwise. Both branches give port+1, and the model states it so.
- TrayLog.QueueHandler.Emit: the `queue.Empty` branch (another thread draining the queue between the drop and the re-put) is not modelled. Message formatting (`self.format(record)`) is not modelled either; `Emit` takes the formatted line.
- AddonOptions.EntryConfig: `EntryNotAnObject` and `BadNumber` carry the entry's index, which Python's AttributeError (run_addon.py:36) and the ValueError or TypeError of `int()` (run_addon.py:57-58) do not; only the missing-host message (run_addon.py:38) names the entry.
- AddonOptions.TvConfig keeps `name` and `origin` as the JSON values given. `run_bridge`'s `origin or None` is not modelled.
- The card-side TypeScript (gesture classifier, frame scheduler, reconnecting transport) is not part of this model.

## Findings

| source | as written | input that shows it | evidently intended | confidence | as-written member | corrected member |
|---|---|---|---|---|---|---|
| addon/webos-pointer-bridge/webos_pointer_bridge.py:472-478, :497 | `--origin` given without a value yields `""`, and `args.origin or None` turns that into None; `_origin_header` then sends `https://www.lge.com` on the pointer and IME sockets, and its `""` branch is unreachable from the command line | `--origin` with no value | the option's help says an empty value skips sending the header, so `""` should reach the bridge and suppress the Origin header on every socket | medium, not executed | WebOSBridge.CliOrigin, WebOSBridge.EmptyOriginFlagSendsDefault | WebOSBridge.IntendedCliOrigin, WebOSBridge.IntendedEmptyOriginSkipsHeader |
