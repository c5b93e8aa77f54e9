# jbIRC in Dafny

A model of the core of jbIRC, an Electron IRC client with a terminal look.
It covers two processes. The main process (`src/main.js`) owns the one IRC
client, builds the transport, and writes the audit log. The renderer holds
three React components:

- the connection form (`src/components/Intro.jsx`);
- the chat pane (`src/components/Chat.jsx`);
- the application shell (`src/App.jsx`), which switches between them.

The four source files are modelled by four modules, with a shared module
for common values and one more for the path between the two processes:

- `common.dfy` (`Common`): values shared by both processes, and the
  JavaScript string and array operations the client relies on. These are
  `String.prototype.trim` with ECMAScript's white-space set, `split` on a
  single character, `join`, `map`, `filter`, and `toUpperCase` on ASCII
  names.
- `main_process.dfy` (`MainProcess`):
  - the audit-log line format and a parser that reads a line back;
  - the library calls `connect-irc` issues for a request, and the point at
    which a failing SOCKS connection or TLS handshake stops them;
  - `sendMessageToUI`, which maps a library event onto the renderer's
    `irc-status` and `irc-message` channels;
  - the class `Backend`, the module-level state (`ircClient`,
    `currentStream`). Its methods are the `connect-irc`, `disconnect` and
    `send-message` handlers and the `registered`, `join` and `message`
    listeners.
- `intro_form.dfy` (`IntroForm`): the form state, its update handlers, the
  Tor preset, the channel-list parser, and the submit rule, in a class
  `Form`.
- `chat_pane.dfy` (`ChatPane`):
  - `getNickColor`, with JavaScript's 32-bit shift written out;
  - the user list grown from incoming messages;
  - the class `Pane`, with its incoming and send handlers.
- `app_shell.dfy` (`AppShell`):
  - the five-state view machine (`intro`, `connecting`,
    `transition-to-chat`, `chat`, `transition-to-intro`);
  - the two half-second timers, kept as an explicit queue of pending
    callbacks that fire oldest first;
  - the three layers' class lists and the rule that mounts the chat layer;
  - the class `App`.
- `status_bridge.dfy` (`StatusBridge`): the path from the main process's
  events to the shell's status listener.

Sockets, TLS and the IRC library are not modelled. Each call the handlers
make into them is appended to a trace (`Backend.calls`). The outcomes of the
awaited SOCKS connection and TLS handshake are parameters. The clock is a
parameter too: timestamps are opaque strings. Log lines go to a sequence
instead of the file.

The model follows the code as written; in particular:

- There is no `Failed` session state. After a failed transport the old
  client, already sent `quit`, stays referenced by `ircClient`.
- No stale-result guard protects the shell's timers. `LateConnectedLeavesEmptyChat`
  shows the result: a "Connected" that arrives while an intro timer is
  pending leaves the shell in `chat` with no details and no chat layer.
- `currentStream` is never assigned, so `disconnect` never destroys a
  stream: `Backend.Valid` carries that the reference is unset, and the
  branch that would destroy it is proved dead.
- The shell's status listener reacts to any text equal to "Connected",
  whatever its origin. `sendMessageToUI` puts every event's text on
  `irc-status`. So a chat message whose body is exactly "Connected" also
  switches the view to the chat (`StatusBridge.ChatMessageConnectedOpensChat`).

## Model

| member | source | states |
|---|---|---|
| Common.TrimStart | src/components/Chat.jsx:67 | the leading-space removal of `trim` yields a suffix of its input that is empty or starts with a non-space |
| Common.TrimEnd | src/components/Chat.jsx:67 | returns a prefix of its input that is empty or ends in a character other than white space |
| Common.TrimStartRemoved | src/components/Chat.jsx:67 | every character the leading pass drops is white space |
| Common.TrimEndRemoved | src/components/Chat.jsx:67 | every character the trailing pass drops is white space |
| Common.Trim | src/components/Intro.jsx:58 | `trim` never lengthens and its result neither starts nor ends with white space |
| Common.TrimKeeps | src/components/Intro.jsx:58 | trimming introduces no character, so a comma-free piece stays comma-free |
| Common.TrimBlank | src/components/Chat.jsx:67 | a string trims to the empty string exactly when it is all white space |
| Common.TrimTrimmed | src/components/Intro.jsx:58 | a string with no white space at either end is its own trim |
| Common.Split | src/components/Intro.jsx:58 | `split` always returns at least one piece |
| Common.SplitPartsFree | src/components/Intro.jsx:58 | no piece of a split contains the separator |
| Common.JoinSplit | src/components/Intro.jsx:58 | joining the pieces of a split with the separator gives the original string |
| Common.SplitNoSeparator | src/components/Intro.jsx:58 | a string without the separator splits into itself alone |
| Common.SplitAround | src/components/Intro.jsx:58 | splitting `a + sep + b` gives the pieces of `a` followed by those of `b` |
| Common.SplitJoin | src/components/Intro.jsx:58 | separator-free pieces joined and split again come back unchanged |
| Common.Map | src/components/Intro.jsx:58 | `map` keeps the length and applies the function at every index |
| Common.Filter | src/components/Intro.jsx:58 | `filter` never lengthens |
| Common.FilterAppend | src/components/Intro.jsx:58 | filtering a concatenation filters each side and keeps their order |
| Common.FilterMembers | src/components/Intro.jsx:58 | every element `filter` keeps satisfies the predicate and comes from the input |
| Common.FilterAll | src/components/Intro.jsx:58 | `filter` keeps a list whose every element satisfies the predicate |
| Common.UpperAscii | src/components/Intro.jsx:30 | `toUpperCase` keeps the length, maps each lower-case ASCII letter to its capital and leaves every other character as it is |
| MainProcess.LogLine | src/main.js:24 | the log line opens with the bracketed timestamp and ends with a line break |
| MainProcess.LogLineOneLine | src/main.js:24-26 | when no field holds a line break, the final one is the only one, so each entry is one line of the file |
| MainProcess.SplitAtFirst | src/main.js:24 | finds the first occurrence of a character, with nothing before it containing that character, or reports that there is none |
| MainProcess.SplitAtFirstOf | src/main.js:24 | a field free of its closing character is read back exactly |
| MainProcess.FieldOf | src/main.js:24 | a bracketed field is read back with the rest of the line |
| MainProcess.TagTypeOfTag | src/main.js:21-24 | each log type tag is read back as its type |
| MainProcess.ParseMessageOf | src/main.js:24 | the `: message` tail of a line is read back |
| MainProcess.ParseFromTargetOf | src/main.js:24 | the `(target): message` tail is read back when the target has no `)` |
| MainProcess.ParseFromNickOf | src/main.js:24 | the `<nick> (target): message` tail is read back when the nick has no `>` |
| MainProcess.ParseFromTypeOf | src/main.js:24 | the tail of a line from the type tag on is read back |
| MainProcess.LogLineRoundTrip | src/main.js:21-24 | a log line determines its entry when the timestamp has no `]`, the nick no `>` and the target no `)` |
| MainProcess.LogLineAmbiguous | src/main.js:24 | without those conditions two different entries can give the same line |
| MainProcess.ClientTag | src/main.js:85 | the request's client tag, or "jbIRC" when the request carries none |
| MainProcess.UsesProxy | src/main.js:94 | the request goes through the proxy when it carries proxy settings that are enabled |
| MainProcess.SocksVersion | src/main.js:101 | SOCKS version 5 exactly for type "SOCKS5", and version 4 for every other type |
| MainProcess.ClientOptions | src/main.js:147-162 | the nick doubles as the user name, the real name is "jbIRC", the encoding is UTF-8, and the client runs over the tunnel exactly when the proxy is on; otherwise it gets host, port, TLS flag, no certificate check and the client tag |
| MainProcess.TransportPlan | src/main.js:94-164 | a successful connect issues the SOCKS connection first exactly when the proxy is on. A TLS upgrade and its wait follow exactly when TLS is on too, and the IRC `connect` comes last |
| MainProcess.TransportPlanOrder | src/main.js:94-143 | no SOCKS call after the first, and a TLS upgrade (always without certificate check) happens exactly when both proxy and TLS are on, immediately followed by the wait |
| MainProcess.JoinCalls | src/main.js:167-168 | one join per channel, in list order |
| MainProcess.TryTransport | src/main.js:93-143 | what the `try` block issues before creating the client: nothing without the proxy, otherwise at most three calls; it fails exactly when the proxy is on and its connection fails, or TLS is on too and the handshake fails |
| MainProcess.TryTransportFollowsPlan | src/main.js:93-164 | a failed transport attempt has issued the plan up to and including the failing step, and a successful one has issued the whole plan but the final `connect` |
| MainProcess.UiEvents | src/main.js:220-235 | nothing is sent once the window is gone. Otherwise the text goes on the status channel, and for chat and system events a record follows on the message channel with "System" for a missing nick |
| MainProcess.Backend.constructor | src/main.js:9-11 | no client and no stream at start |
| MainProcess.Backend.ConnectIrc | src/main.js:82-193 | quits the old client, keeping the reference, then runs the transport attempt. On success a new numbered client becomes current and is connected with `ClientOptions`. On failure nothing more is issued, the client reference is unchanged, one ERR line is logged and an error status is shown if the window exists. The handler reports success either way |
| MainProcess.Backend.StartClient | src/main.js:145-164 | the new client gets the next number, becomes current and is connected with the request's options |
| MainProcess.ErrorLine | src/main.js:187 | the catch block's log line: an ERR entry from "System" about "Local" saying `Connection Failed: <message>` |
| MainProcess.ErrorLineReadsBack | src/main.js:187 | that line reads back as exactly that entry when the timestamp has no `]` |
| MainProcess.ErrorStatus | src/main.js:188-189 | one `ERROR: <message>` status when a window exists, nothing otherwise |
| MainProcess.Backend.ReportFailure | src/main.js:185-190 | the catch block logs `Connection Failed: <message>` as an ERR line and sends `ERROR: <message>` to the window, when there is one |
| MainProcess.Backend.OpenTransport | src/main.js:93-143 | issues exactly the calls of the transport attempt and returns its failure; on success a tunnel exists exactly when the proxy is on |
| MainProcess.Backend.Disconnect | src/main.js:196-208 | quits and drops the current client, issues nothing else since the stream reference is never set, touches nothing else, reports success |
| MainProcess.Backend.SendMessage | src/main.js:210-212 | with a current client the text is said to the target and logged as SENT under the client's nick; without one nothing happens |
| MainProcess.Backend.OnRegistered | src/main.js:166-173 | joins the listener's channels through the current client, logs the connection and announces "Connected". With channels but no current client the first join throws and nothing else happens |
| MainProcess.Backend.JoinAll | src/main.js:168 | the loop issues exactly `JoinCalls` for the channel list |
| MainProcess.Backend.OnJoin | src/main.js:175-178 | logs the join as SYS and forwards a system event "joined" |
| MainProcess.Backend.OnMessage | src/main.js:180-183 | logs the message as MSG and forwards it as a chat event |
| MainProcess.DisconnectTwice | src/main.js:196-208 | from any valid state, two `disconnect` calls issue only the first one's quit, and the second changes nothing |
| IntroForm.ApplyChange | src/components/Intro.jsx:24-29 | the named field takes the checkbox state or the input value; every other field and the client tag are unchanged |
| IntroForm.SetProxyField | src/components/Intro.jsx:33-35 | only the named proxy field changes, and `enabled` is kept |
| IntroForm.TorToggled | src/components/Intro.jsx:39-46 | `enabled` flips and the proxy resets to SOCKS5 at 127.0.0.1:9050 |
| IntroForm.ParseChannels | src/components/Intro.jsx:58 | split on commas, trim each piece and drop the empty ones; its count and content are fixed by the lemmas below |
| IntroForm.ParseChannelsCount | src/components/Intro.jsx:58 | at most one channel per comma-separated piece |
| IntroForm.Clean | src/components/Intro.jsx:58 | trimming and dropping empty pieces never lengthens the list |
| IntroForm.CleanGivesTokens | src/components/Intro.jsx:58 | cleaning comma-free pieces leaves only non-empty, trimmed, comma-free names |
| IntroForm.ParseChannelsTokens | src/components/Intro.jsx:58 | every parsed channel is non-empty, trimmed and free of commas |
| IntroForm.CleanAppend | src/components/Intro.jsx:58 | cleaning keeps the order of the pieces |
| IntroForm.CleanTokens | src/components/Intro.jsx:58 | a list already made of channel names is left as it is |
| IntroForm.ParseOnePiece | src/components/Intro.jsx:58 | text without commas gives its trimmed self, or nothing when it is blank |
| IntroForm.ParseAroundComma | src/components/Intro.jsx:58 | the text on either side of a comma is parsed independently, in order |
| IntroForm.ParseJoinTokens | src/components/Intro.jsx:58 | channel names joined with commas parse back to the same list |
| IntroForm.ParseChannelsIdempotent | src/components/Intro.jsx:58 | parsing, joining and parsing again gives the same list |
| IntroForm.Submit | src/components/Intro.jsx:50-65 | rejected exactly when the nick or the server is empty, with the missing-fields status. Otherwise the status depends on the proxy flag, and the payload is the form with parsed channels and the proxy settings attached |
| IntroForm.Form.constructor | src/components/Intro.jsx:6-22 | the initial form, proxy settings and status |
| IntroForm.Form.HandleChange | src/components/Intro.jsx:24-31 | the form takes the change, and the status names the field in capitals |
| IntroForm.Form.HandleProxyChange | src/components/Intro.jsx:33-37 | the proxy takes the change, and the status names the field in capitals |
| IntroForm.Form.ToggleTor | src/components/Intro.jsx:39-48 | the Tor preset is applied, and the status says whether the module was loaded or unloaded |
| IntroForm.Form.HandleSubmit | src/components/Intro.jsx:50-65 | shows the status of `Submit`, and hands its payload on only when accepted |
| ChatPane.ToInt32 | src/components/Chat.jsx:11 | ECMAScript ToInt32: a signed 32-bit value congruent to its input modulo 2^32 |
| ChatPane.ShiftLeft5 | src/components/Chat.jsx:11 | `hash << 5` is the signed 32-bit value congruent to `32 * hash` modulo 2^32 |
| ChatPane.HashStep | src/components/Chat.jsx:11 | one loop step is `c + 31 * hash` modulo 2^32 |
| ChatPane.NickHash | src/components/Chat.jsx:9-12 | the hash the loop computes agrees modulo 2^32 with the polynomial hash, the sum of each character code times 31 to the power of the characters after it |
| ChatPane.NickHashBound | src/components/Chat.jsx:9-12 | the hash grows by less than 2^32 per character, so it stays exact in double arithmetic for any realistic nick |
| ChatPane.NickHashSingle | src/components/Chat.jsx:9-12 | a one-character nick hashes to its character code |
| ChatPane.NickColor | src/components/Chat.jsx:3-14 | the loop computes the nick hash and picks the palette entry at its absolute value modulo 10; the result is always a palette colour, and cyan for the empty nick |
| ChatPane.FindUser | src/components/Chat.jsx:41 | `find` by nick returns the first matching entry, or none exactly when no entry has that nick |
| ChatPane.WithSender | src/components/Chat.jsx:39-43 | the user list grows, by the sender with no mode at its end, exactly when the message names a sender, is not a system notice and the sender is absent; otherwise it is unchanged |
| ChatPane.WithSenderUnique | src/components/Chat.jsx:39-43 | the list never gets a duplicate nick |
| ChatPane.WithSenderListed | src/components/Chat.jsx:39-43 | after a message from a real sender, that sender is listed |
| ChatPane.CurrentChannel | src/components/Chat.jsx:25 | the first channel of the details, and none exactly when the channel list is empty |
| ChatPane.Pane.constructor | src/components/Chat.jsx:17-22 | no messages, an empty input, and the own nick listed as operator with its client tag |
| ChatPane.Pane.HandleIncoming | src/components/Chat.jsx:36-45 | the message is appended as received, and the user list is updated by `WithSender` |
| ChatPane.Pane.SetInput | src/components/Chat.jsx:154 | the input holds the typed text |
| ChatPane.Pane.HandleSend | src/components/Chat.jsx:65-86 | blank input changes nothing. Otherwise the untrimmed text is sent to the first channel with client "jbIRC", echoed under the own nick and client, and the input is cleared |
| AppShell.Connect | src/App.jsx:11-18 | the view is `connecting`, the details are stored so the chat layer is mounted, the details go to the main process, and pending timers stay queued |
| AppShell.Disconnect | src/App.jsx:20-27 | the view is `transition-to-intro`, the intro timer is queued, and the details and the chat layer stay; the main process is not called |
| AppShell.Cancel | src/App.jsx:29-33 | the main process is told to disconnect and the chat layer goes at once, but pending timers are not cancelled |
| AppShell.OnStatus | src/App.jsx:37-45 | the status listener never touches the details or calls the main process, and either changes nothing or moves to `transition-to-chat` |
| AppShell.Fire | src/App.jsx:23-26 | the oldest timer fires: the intro one shows the intro and clears the details, the chat one shows the chat and keeps them; no call is made |
| AppShell.FireAll | src/App.jsx:23-26 | once every timer has fired none is pending, no call has been made, and cleared details stay cleared |
| AppShell.OnStatusEffect | src/App.jsx:37-45 | "Connected" moves any state to `transition-to-chat` and queues the chat timer, keeping details and calls; any other status changes nothing |
| AppShell.FireAllLast | src/App.jsx:23-26 | when every timer has run, the last one decides the view: chat, or intro without details |
| AppShell.PendingIntroClears | src/App.jsx:23-26 | a pending intro timer leaves the details cleared once every timer has fired |
| AppShell.ConnectedReachesChat | src/App.jsx:37-45 | after "Connected", in any state, the view ends up `chat` once the timers have run |
| AppShell.DisconnectReturnsToIntro | src/App.jsx:20-27 | from any state, even with the chat timer still pending, disconnecting keeps the details and the chat layer until the timers fire, then returns to the intro with no details and no chat layer |
| AppShell.LateConnectedLeavesEmptyChat | src/App.jsx:20-45 | in any state with an intro timer pending, a "Connected" leaves the view at `chat` with no details and no chat layer mounted once the timers have run |
| AppShell.ChatMounted | src/App.jsx:129 | the chat layer is rendered when there are details or while the shell fades back to the intro |
| AppShell.FadeKeepsDetails | src/App.jsx:20-24 | the fade back to the intro always has details, from the start and after every transition, with disconnect reached only from the mounted chat pane; so a mounted chat layer has details and the `{}` fallback at src/App.jsx:132 is never taken |
| AppShell.IntroClasses | src/App.jsx:51-65 | every view gets at least four classes, each a non-empty name without spaces |
| AppShell.ConnectingClasses | src/App.jsx:67-76 | every view gets at least four classes, each a non-empty name without spaces |
| AppShell.ChatClasses | src/App.jsx:78-92 | every view gets at least four classes, each a non-empty name without spaces |
| AppShell.ClassListOfName | src/App.jsx:100 | a `className` built from class names splits back into those names |
| AppShell.PointerEvents | src/App.jsx:51-92 | the connecting overlay takes the pointer only while connecting, the chat layer only in the two chat views, and the intro layer everywhere else |
| AppShell.IntroClassList | src/App.jsx:51-65 | the intro layer's style string carries exactly its class list |
| AppShell.ConnectingClassList | src/App.jsx:67-76 | the connecting overlay's style string carries exactly its class list |
| AppShell.ChatClassList | src/App.jsx:78-92 | the chat layer's style string carries exactly its class list |
| AppShell.App.constructor | src/App.jsx:7-9 | the intro view with no details, no timers and no calls |
| AppShell.App.HandleConnect | src/App.jsx:11-18 | the details are stored, the view is `connecting`, and the details are sent to the main process |
| AppShell.App.HandleDisconnect | src/App.jsx:20-27 | the view is `transition-to-intro` and the intro timer is queued |
| AppShell.App.HandleCancelConnection | src/App.jsx:29-33 | the main process is told to disconnect, and the view returns to the intro without details |
| AppShell.App.HandleStatus | src/App.jsx:37-45 | the shell follows `OnStatus` |
| AppShell.App.FireTimer | src/App.jsx:23-26 | the oldest timer fires without looking at the current state |
| StatusBridge.Deliver | src/App.jsx:37-45 | the events of one `sendMessageToUI` call never change the details or call the main process, and either leave the shell as it was or move it to `transition-to-chat` |
| StatusBridge.ConnectedTextOpensChat | src/main.js:220-222 | any event whose text is "Connected", with the window open, moves the shell to `transition-to-chat` with a chat timer queued, keeping details and calls, and the view reaches `chat` |
| StatusBridge.ChatMessageConnectedOpensChat | src/main.js:180-183 | an incoming chat message whose body is exactly "Connected" switches the shell to the chat view |
| StatusBridge.OtherTextIgnored | src/App.jsx:37-45 | any other text, or a closed window, leaves the shell unchanged |
| StatusBridge.RegisteredOpensChat | src/main.js:166-173 | the `registered` announcement brings the shell to the chat view |

## Left out

- Window creation and the title-bar controls (`minimize-window`, `maximize-window`, `close-window`), the external-link handler, `open-url` and `open-logs`: they only drive Electron.
- The preload bridge and IPC transport: each handler is modelled as the function it registers.
- Real sockets, the SOCKS and TLS libraries and the IRC protocol: calls into them are recorded, and their results are parameters.
- The TLS socket's `authorized` and `encrypted` flags: folded into the handshake outcome.
- A TLS wait that never settles, and a synchronous throw from `new Irc.Client()` or `connect`.
- Concurrency between handlers, and the timers' delays: timers fire in the order they were set.
- Filesystem errors while logging, the log directory, and the clock: timestamps and times of day are inputs.
- `parseInt` of the ports: ports in the main process are natural numbers.
- The form's initial numeric ports (6697 and 9050) are held as text like any edited value.
- Server-side nick changes: `ircClient.user.nick` is taken as the nick the client was created with.
- One flag stands for both the main window being alive (`sendMessageToUI`) and the first window existing (the `catch` block).
- ChatPane.NickColor: characters are Unicode scalar values, not UTF-16 code units, so for a nick outside the Basic Multilingual Plane it hashes one code point where JavaScript hashes two surrogates.
- Common.UpperAscii: upper-cases ASCII letters only, which covers every name the form passes to `toUpperCase`.
- The unused `isConnected` state, the proxy dropdown's open flag, and the case where `window.ircAPI` is absent.
- The `connectionDetails || {}` fallback of src/App.jsx:132: no reachable state uses it, since `FadeKeepsDetails` proves the chat layer is mounted only with details.
- Rendering, scrolling, the connecting overlay's text, and console logging.
