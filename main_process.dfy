/** The Electron main process of jbIRC (src/main.js): the audit-log line
    format, the transport plan chosen from the proxy and TLS flags, the
    mapping of library events onto the renderer's two channels, and the
    `connect-irc`, `disconnect` and `send-message` handlers acting on the one
    module-level IRC client reference. Sockets, TLS and the IRC library are
    abstract: their calls are recorded in a trace, their results are inputs. */
module MainProcess {
  import opened Common

  // ---------------------------------------------------------------------
  // The audit log

  datatype LogType = Sys | Msg | Sent | Err

  function Tag(t: LogType): string {
    match t
    case Sys => "SYS"
    case Msg => "MSG"
    case Sent => "SENT"
    case Err => "ERR"
  }

  /** One `writeToLog(type, nick, target, message)` call; the timestamp is the
      locale string the call would read from the clock. */
  datatype LogEntry = LogEntry(timestamp: string, kind: LogType, nick: string, target: string, message: string)

  /** The line appended to the log file for an entry: it opens with the
      bracketed timestamp and ends with a line break. */
  function LogLine(e: LogEntry): (r: string)
    ensures |r| > 0 && r[0] == '[' && r[|r| - 1] == '\n'
  {
    "[" + e.timestamp + "] [" + Tag(e.kind) + "] <" + e.nick + "> (" + e.target + "): " + e.message + "\n"
  }

  /** Each entry is one line of the file: the final line break is the only
      one, unless a field carries one of its own. */
  lemma LogLineOneLine(e: LogEntry)
    requires '\n' !in e.timestamp + e.nick + e.target + e.message
    ensures '\n' !in LogLine(e)[..|LogLine(e)| - 1]
  {
    var r := LogLine(e);
    assert r[..|r| - 1] == "[" + e.timestamp + "] [" + Tag(e.kind) + "] <" + e.nick + "> (" + e.target + "): " + e.message;
  }

  /** Splits `s` at the first occurrence of `c`. */
  function SplitAtFirst(s: string, c: char): (r: Option<(string, string)>)
    ensures r.None? <==> c !in s
    ensures r.Some? ==> c !in r.value.0 && s == r.value.0 + [c] + r.value.1
  {
    if s == [] then None
    else if s[0] == c then Some(([], s[1..]))
    else match SplitAtFirst(s[1..], c)
      case None => None
      case Some(p) => Some(([s[0]] + p.0, p.1))
  }

  lemma {:induction false} SplitAtFirstOf(a: string, c: char, b: string)
    requires c !in a
    ensures SplitAtFirst(a + [c] + b, c) == Some((a, b))
  {
    if a != [] {
      assert (a + [c] + b)[1..] == a[1..] + [c] + b;
      SplitAtFirstOf(a[1..], c, b);
      assert [a[0]] + a[1..] == a;
    }
  }

  /** Reads `open`, then a field up to the character `close`. */
  function Field(s: string, open: string, close: char): Option<(string, string)> {
    if |open| <= |s| && s[..|open|] == open then SplitAtFirst(s[|open|..], close) else None
  }

  lemma FieldOf(open: string, f: string, close: char, rest: string)
    requires close !in f
    ensures Field(open + f + [close] + rest, open, close) == Some((f, rest))
  {
    var s := open + f + [close] + rest;
    assert s[..|open|] == open;
    assert s[|open|..] == f + [close] + rest;
    SplitAtFirstOf(f, close, rest);
  }

  function TagType(tag: string): Option<LogType> {
    if tag == "SYS" then Some(Sys)
    else if tag == "MSG" then Some(Msg)
    else if tag == "SENT" then Some(Sent)
    else if tag == "ERR" then Some(Err)
    else None
  }

  /** Reads a log line back into its entry, field by field. */
  function ParseLogLine(line: string): Option<LogEntry> {
    match Field(line, "[", ']')
    case None => None
    case Some(p) => ParseFromType(p.0, p.1)
  }

  function ParseFromType(ts: string, s: string): Option<LogEntry> {
    match Field(s, " [", ']')
    case None => None
    case Some(p) =>
      match TagType(p.0)
      case None => None
      case Some(t) => ParseFromNick(ts, t, p.1)
  }

  function ParseFromNick(ts: string, t: LogType, s: string): Option<LogEntry> {
    match Field(s, " <", '>')
    case None => None
    case Some(p) => ParseFromTarget(ts, t, p.0, p.1)
  }

  function ParseFromTarget(ts: string, t: LogType, nick: string, s: string): Option<LogEntry> {
    match Field(s, " (", ')')
    case None => None
    case Some(p) => ParseMessage(ts, t, nick, p.0, p.1)
  }

  function ParseMessage(ts: string, t: LogType, nick: string, target: string, s: string): Option<LogEntry> {
    if |s| >= 3 && s[..2] == ": " && s[|s| - 1] == '\n' then Some(LogEntry(ts, t, nick, target, s[2..|s| - 1]))
    else None
  }

  lemma TagTypeOfTag(t: LogType)
    ensures ']' !in Tag(t) && TagType(Tag(t)) == Some(t)
  {
  }

  // The round trip, one parsing stage at a time, from the end of the line.

  lemma ParseMessageOf(ts: string, t: LogType, nick: string, target: string, message: string)
    ensures ParseMessage(ts, t, nick, target, ": " + message + "\n") == Some(LogEntry(ts, t, nick, target, message))
  {
    var s := ": " + message + "\n";
    assert s[..2] == ": " && s[2..|s| - 1] == message;
  }

  lemma ParseFromTargetOf(ts: string, t: LogType, nick: string, target: string, message: string)
    requires ')' !in target
    ensures ParseFromTarget(ts, t, nick, " (" + target + "): " + message + "\n")
         == Some(LogEntry(ts, t, nick, target, message))
  {
    var rest := ": " + message + "\n";
    assert " (" + target + "): " + message + "\n" == " (" + target + [')'] + rest;
    FieldOf(" (", target, ')', rest);
    ParseMessageOf(ts, t, nick, target, message);
  }

  lemma ParseFromNickOf(ts: string, t: LogType, nick: string, target: string, message: string)
    requires '>' !in nick && ')' !in target
    ensures ParseFromNick(ts, t, " <" + nick + "> (" + target + "): " + message + "\n")
         == Some(LogEntry(ts, t, nick, target, message))
  {
    var rest := " (" + target + "): " + message + "\n";
    assert " <" + nick + "> (" + target + "): " + message + "\n" == " <" + nick + ['>'] + rest;
    FieldOf(" <", nick, '>', rest);
    ParseFromTargetOf(ts, t, nick, target, message);
  }

  lemma ParseFromTypeOf(e: LogEntry)
    requires '>' !in e.nick && ')' !in e.target
    ensures ParseFromType(e.timestamp, " [" + Tag(e.kind) + "] <" + e.nick + "> (" + e.target + "): " + e.message + "\n")
         == Some(e)
  {
    var rest := " <" + e.nick + "> (" + e.target + "): " + e.message + "\n";
    assert " [" + Tag(e.kind) + "] <" + e.nick + "> (" + e.target + "): " + e.message + "\n"
        == " [" + Tag(e.kind) + [']'] + rest;
    TagTypeOfTag(e.kind);
    FieldOf(" [", Tag(e.kind), ']', rest);
    ParseFromNickOf(e.timestamp, e.kind, e.nick, e.target, e.message);
  }

  /** The log format can be read back: when the timestamp has no ']', the nick
      no '>' and the target no ')', the line determines the entry. */
  lemma LogLineRoundTrip(e: LogEntry)
    requires ']' !in e.timestamp && '>' !in e.nick && ')' !in e.target
    ensures ParseLogLine(LogLine(e)) == Some(e)
  {
    var rest := " [" + Tag(e.kind) + "] <" + e.nick + "> (" + e.target + "): " + e.message + "\n";
    assert LogLine(e) == "[" + e.timestamp + [']'] + rest;
    FieldOf("[", e.timestamp, ']', rest);
    ParseFromTypeOf(e);
  }

  /** Without those conditions the format is ambiguous: a target containing
      "): " can be confused with the start of the message. */
  lemma LogLineAmbiguous()
    ensures LogLine(LogEntry("t", Msg, "n", "#a): b", "c"))
         == LogLine(LogEntry("t", Msg, "n", "#a", "b): c"))
  {
  }

  // ---------------------------------------------------------------------
  // Connection requests and the transport plan

  datatype ProxySettings = ProxySettings(enabled: bool, kind: string, host: string, port: nat)

  /** The object the renderer passes to `connect-irc`; `proxy` and `client`
      may be absent. Ports are already numbers. */
  datatype ConnectRequest = ConnectRequest(
    nick: string,
    server: string,
    port: nat,
    channels: seq<string>,
    tls: bool,
    proxy: Option<ProxySettings>,
    client: Option<string>)

  /** The client tag, defaulting to "jbIRC" when the request has none. */
  function ClientTag(r: ConnectRequest): (tag: string)
    ensures r.client.Some? ==> tag == r.client.value
    ensures r.client.None? ==> tag == "jbIRC"
  {
    r.client.GetOr("jbIRC")
  }

  predicate UsesProxy(r: ConnectRequest) {
    r.proxy.Some? && r.proxy.value.enabled
  }

  /** The SOCKS protocol version requested from the proxy library. */
  function SocksVersion(kind: string): (v: nat)
    ensures v == 5 <==> kind == "SOCKS5"
    ensures v == 4 <==> kind != "SOCKS5"
  {
    if kind == "SOCKS5" then 5 else 4
  }

  /** How the IRC client reaches the server: over a stream built here, or by
      opening its own connection. */
  datatype IrcTransport =
    | OverStream
    | HostPort(host: string, port: nat, tls: bool, rejectUnauthorized: bool, client: string)

  datatype IrcOptions = IrcOptions(nick: string, username: string, gecos: string, encoding: string, transport: IrcTransport)

  /** Calls into the socket, TLS and IRC libraries, in the order issued. */
  datatype Call =
    | SocksConnect(proxyHost: string, proxyPort: nat, version: nat, destHost: string, destPort: nat)
    | TlsConnect(host: string, servername: string, rejectUnauthorized: bool)
    | TlsAwait
    | IrcConnect(client: nat, options: IrcOptions)
    | Quit(client: nat)
    | Join(client: nat, channel: string)
    | Say(client: nat, target: string, text: string)

  /** The options `connect` receives: over the tunnel when the request goes
      through the proxy, otherwise by host and port with the client tag. */
  function ClientOptions(r: ConnectRequest): (o: IrcOptions)
    ensures o.nick == r.nick && o.username == r.nick && o.gecos == "jbIRC" && o.encoding == "utf8"
    ensures o.transport.OverStream? <==> UsesProxy(r)
    ensures !UsesProxy(r) ==> o.transport == HostPort(r.server, r.port, r.tls, false, ClientTag(r))
  {
    IrcOptions(r.nick, r.nick, "jbIRC", "utf8",
               if UsesProxy(r) then OverStream else HostPort(r.server, r.port, r.tls, false, ClientTag(r)))
  }

  /** The library calls a successful `connect-irc` issues for request `r`,
      when the new IRC client is number `client`. */
  function TransportPlan(r: ConnectRequest, client: nat): (plan: seq<Call>)
    ensures |plan| == if UsesProxy(r) then (if r.tls then 4 else 2) else 1
    ensures plan[0].SocksConnect? <==> UsesProxy(r)
    ensures UsesProxy(r) ==> plan[0] == SocksConnect(r.proxy.value.host, r.proxy.value.port,
                                                     SocksVersion(r.proxy.value.kind), r.server, r.port)
    ensures UsesProxy(r) && r.tls ==> plan[1] == TlsConnect(r.server, r.server, false) && plan[2] == TlsAwait
    ensures plan[|plan| - 1] == IrcConnect(client, ClientOptions(r))
  {
    var connect := IrcConnect(client, ClientOptions(r));
    if !UsesProxy(r) then [connect]
    else
      var socks := SocksConnect(r.proxy.value.host, r.proxy.value.port, SocksVersion(r.proxy.value.kind), r.server, r.port);
      if r.tls then [socks, TlsConnect(r.server, r.server, false), TlsAwait, connect] else [socks, connect]
  }

  /** A SOCKS step comes first or not at all, and an explicit TLS upgrade
      (followed by the wait for its handshake) happens exactly when both the
      proxy and TLS are on. */
  lemma TransportPlanOrder(r: ConnectRequest, client: nat)
    ensures var plan := TransportPlan(r, client);
            && (forall i :: 0 < i < |plan| ==> !plan[i].SocksConnect?)
            && ((exists i :: 0 <= i < |plan| && plan[i].TlsConnect?) <==> UsesProxy(r) && r.tls)
            && (forall i :: 0 <= i < |plan| && plan[i].TlsConnect? ==>
                  plan[i] == TlsConnect(r.server, r.server, false) && i + 1 < |plan| && plan[i + 1] == TlsAwait)
  {
    var plan := TransportPlan(r, client);
    if UsesProxy(r) && r.tls {
      assert plan[1].TlsConnect?;
    }
  }

  /** The joins issued for a channel list, one per channel, in list order. */
  function JoinCalls(client: nat, channels: seq<string>): (calls: seq<Call>)
    ensures |calls| == |channels|
    ensures forall i :: 0 <= i < |channels| ==> calls[i] == Join(client, channels[i])
  {
    if channels == [] then []
    else JoinCalls(client, channels[..|channels| - 1]) + [Join(client, channels[|channels| - 1])]
  }

  /** What the `try` block of `connect-irc` issues before the IRC client is
      created, given the outcomes of the SOCKS connection and of the TLS
      handshake, and the message of the first failure, if any. */
  datatype Attempt = Attempt(issued: seq<Call>, failure: Option<string>)

  function TryTransport(r: ConnectRequest, socks: Outcome, handshake: Outcome): (a: Attempt)
    ensures a.failure.Some? <==> UsesProxy(r) && (socks.Failed? || (r.tls && handshake.Failed?))
    ensures a.issued == [] <==> !UsesProxy(r)
    ensures |a.issued| <= 3
  {
    if !UsesProxy(r) then Attempt([], None)
    else
      var connect := SocksConnect(r.proxy.value.host, r.proxy.value.port, SocksVersion(r.proxy.value.kind), r.server, r.port);
      if socks.Failed? then Attempt([connect], Some(socks.message))
      else if !r.tls then Attempt([connect], None)
      else Attempt([connect, TlsConnect(r.server, r.server, false), TlsAwait],
                   if handshake.Failed? then Some(handshake.message) else None)
  }

  /** The attempt follows the transport plan: a failed attempt stops right
      after the failing step, and a successful one has issued everything but
      the final `connect`. */
  lemma TryTransportFollowsPlan(r: ConnectRequest, socks: Outcome, handshake: Outcome, client: nat)
    ensures var a := TryTransport(r, socks, handshake);
            var plan := TransportPlan(r, client);
            && (a.failure.None? ==> a.issued + [plan[|plan| - 1]] == plan)
            && (UsesProxy(r) && socks.Failed? ==> a.issued == plan[..1] && a.failure == Some(socks.message))
            && (UsesProxy(r) && socks.Done? && r.tls && handshake.Failed? ==>
                  a.issued == plan[..3] && a.failure == Some(handshake.message))
  {
  }

  // ---------------------------------------------------------------------
  // The renderer's channels

  /** The argument of `sendMessageToUI`; `nick` and `target` are "" where the
      caller leaves them out. */
  datatype UiData = UiData(kind: string, nick: string, target: string, message: string)

  /** A send on `irc-status` or on `irc-message`. */
  datatype UiEvent = Status(text: string) | Message(msg: ChatMessage)

  /** What `sendMessageToUI` sends, given whether the main window is still
      there and the clock's time of day. */
  function UiEvents(d: UiData, windowOpen: bool, time: string): (events: seq<UiEvent>)
    ensures |events| <= 2
    ensures |events| > 0 <==> windowOpen
    ensures |events| > 0 ==> events[0] == Status(d.message)
    ensures |events| == 2 <==> windowOpen && (d.kind == "message" || d.kind == "system")
    ensures |events| == 2 ==>
      events[1] == Message(ChatMessage(if d.nick == "" then "System" else d.nick, Some(d.target),
                                       d.message, d.kind, time, "jbIRC"))
  {
    if !windowOpen then []
    else
      var status := [Status(d.message)];
      if d.kind == "message" || d.kind == "system" then
        status + [Message(ChatMessage(if d.nick == "" then "System" else d.nick, Some(d.target),
                                      d.message, d.kind, time, "jbIRC"))]
      else status
  }

  function StatusData(message: string): UiData {
    UiData("status", "", "", message)
  }

  // ---------------------------------------------------------------------
  // The session handler

  /** The result of an awaited library operation. */
  datatype Outcome = Done | Failed(message: string)

  /** An IRC client object: its number, and the nick, server and channel
      list its event listeners were registered with. */
  datatype Session = Session(id: nat, nick: string, server: string, channels: seq<string>)

  function QuitCall(client: Option<Session>): seq<Call> {
    if client.Some? then [Quit(client.value.id)] else []
  }

  function ErrorLine(ts: string, message: string): string {
    LogLine(LogEntry(ts, Err, "System", "Local", "Connection Failed: " + message))
  }

  /** The failure line reads back as an ERR entry from "System" about
      "Local", whatever the message, when the timestamp has no ']'. */
  lemma ErrorLineReadsBack(ts: string, message: string)
    requires ']' !in ts
    ensures ParseLogLine(ErrorLine(ts, message)) == Some(LogEntry(ts, Err, "System", "Local", "Connection Failed: " + message))
  {
    LogLineRoundTrip(LogEntry(ts, Err, "System", "Local", "Connection Failed: " + message));
  }

  /** The failure status sent to the first window, when there is one. */
  function ErrorStatus(windowOpen: bool, message: string): (events: seq<UiEvent>)
    ensures |events| <= 1 && (events != [] <==> windowOpen)
    ensures events != [] ==> events[0] == Status("ERROR: " + message)
  {
    if windowOpen then [Status("ERROR: " + message)] else []
  }

  /** The main process's module-level state: the current IRC client, the
      unused stream reference, and everything it has sent out so far. */
  class Backend {
    var ircClient: Option<Session>
    var currentStream: Option<nat>
    var nextClient: nat
    var windowOpen: bool
    var calls: seq<Call>
    var log: seq<string>
    var ui: seq<UiEvent>
    ghost var created: seq<Session>

    /** Clients are numbered in creation order and the current one is among
        them; no handler ever sets the stream reference. */
    ghost predicate Valid()
      reads this
    {
      && |created| == nextClient
      && (forall i :: 0 <= i < |created| ==> created[i].id == i)
      && (ircClient.Some? ==> ircClient.value in created)
      && currentStream.None?
    }

    constructor (windowOpen: bool)
      ensures Valid()
      ensures ircClient.None? && currentStream.None? && nextClient == 0 && this.windowOpen == windowOpen
      ensures calls == [] && log == [] && ui == []
    {
      ircClient := None;
      currentStream := None;
      nextClient := 0;
      this.windowOpen := windowOpen;
      calls := [];
      log := [];
      ui := [];
      created := [];
    }

    /** `connect-irc`: quit any current client without dropping the reference,
        then run the transport plan; the SOCKS connection and the TLS
        handshake may fail, with the given outcomes. The handler reports
        success whatever happens. */
    method ConnectIrc(r: ConnectRequest, socks: Outcome, handshake: Outcome, ts: string) returns (success: bool)
      requires Valid()
      modifies this
      ensures Valid() && success
      ensures windowOpen == old(windowOpen) && currentStream == old(currentStream)
      ensures var a := TryTransport(r, socks, handshake);
              var before := old(calls) + QuitCall(old(ircClient)) + a.issued;
              if a.failure.None? then
                && calls == before + [IrcConnect(old(nextClient), ClientOptions(r))]
                && ircClient == Some(Session(old(nextClient), r.nick, r.server, r.channels))
                && nextClient == old(nextClient) + 1
                && log == old(log) && ui == old(ui)
              else
                && calls == before
                && ircClient == old(ircClient) && nextClient == old(nextClient)
                && log == old(log) + [ErrorLine(ts, a.failure.value)]
                && ui == old(ui) + ErrorStatus(windowOpen, a.failure.value)
    {
      if ircClient.Some? {
        calls := calls + [Quit(ircClient.value.id)];
      }
      var tunnel, failure := OpenTransport(r, socks, handshake);
      if failure.None? {
        StartClient(r, tunnel);
      } else {
        ReportFailure(ts, failure.value);
      }
      success := true;
    }

    /** The tail of the `try` once the transport is up: a new client, made
        current, connected with the request's options. */
    method StartClient(r: ConnectRequest, tunnel: bool)
      requires Valid() && (tunnel <==> UsesProxy(r))
      modifies this`ircClient, this`nextClient, this`created, this`calls
      ensures Valid()
      ensures ircClient == Some(Session(old(nextClient), r.nick, r.server, r.channels))
      ensures nextClient == old(nextClient) + 1
      ensures calls == old(calls) + [IrcConnect(old(nextClient), ClientOptions(r))]
    {
      var session := Session(nextClient, r.nick, r.server, r.channels);
      created := created + [session];
      nextClient := nextClient + 1;
      ircClient := Some(session);
      var transport := if tunnel then OverStream else HostPort(r.server, r.port, r.tls, false, ClientTag(r));
      calls := calls + [IrcConnect(session.id, IrcOptions(r.nick, r.nick, "jbIRC", "utf8", transport))];
    }

    /** The `catch` block: log the failure and show it on the first window. */
    method ReportFailure(ts: string, message: string)
      modifies this`log, this`ui
      ensures log == old(log) + [ErrorLine(ts, message)]
      ensures ui == old(ui) + ErrorStatus(windowOpen, message)
    {
      log := log + [ErrorLine(ts, message)];
      if windowOpen {
        ui := ui + [Status("ERROR: " + message)];
      }
    }

    /** The part of `connect-irc` inside its `try` that runs before the IRC
        client is created: the SOCKS connection and the TLS upgrade, as far
        as the first failure. `tunnel` says whether a proxied socket exists. */
    method OpenTransport(r: ConnectRequest, socks: Outcome, handshake: Outcome)
      returns (tunnel: bool, failure: Option<string>)
      modifies this`calls
      ensures var a := TryTransport(r, socks, handshake);
              calls == old(calls) + a.issued && failure == a.failure
      ensures failure.None? ==> (tunnel <==> UsesProxy(r))
    {
      tunnel := false;
      failure := None;
      if r.proxy.Some? && r.proxy.value.enabled {
        var p := r.proxy.value;
        calls := calls + [SocksConnect(p.host, p.port, SocksVersion(p.kind), r.server, r.port)];
        if socks.Failed? {
          failure := Some(socks.message);
        } else {
          tunnel := true;
        }
      }
      if failure.None? && r.tls && tunnel {
        calls := calls + [TlsConnect(r.server, r.server, false)];
      }
      if failure.None? && tunnel && r.tls {
        calls := calls + [TlsAwait];
        if handshake.Failed? {
          failure := Some(handshake.message);
        }
      }
    }

    /** `disconnect`: quit and drop the current client, if any. Its branch
        that destroys the stream never runs: nothing sets that reference. */
    method Disconnect() returns (success: bool)
      requires Valid()
      modifies this
      ensures Valid() && success
      ensures ircClient.None? && currentStream.None?
      ensures calls == old(calls) + QuitCall(old(ircClient))
      ensures log == old(log) && ui == old(ui)
      ensures nextClient == old(nextClient) && created == old(created) && windowOpen == old(windowOpen)
    {
      if ircClient.Some? {
        calls := calls + [Quit(ircClient.value.id)];
        ircClient := None;
      }
      if currentStream.Some? {
        assert false;
      }
      success := true;
    }

    /** `send-message`: with a current client, say the text and log it under
        the client's nick; otherwise do nothing. */
    method SendMessage(target: string, text: string, ts: string)
      requires Valid()
      modifies this`calls, this`log
      ensures Valid()
      ensures old(ircClient).None? ==> calls == old(calls) && log == old(log)
      ensures old(ircClient).Some? ==>
                && calls == old(calls) + [Say(ircClient.value.id, target, text)]
                && log == old(log) + [LogLine(LogEntry(ts, Sent, ircClient.value.nick, target, text))]
    {
      if ircClient.Some? {
        calls := calls + [Say(ircClient.value.id, target, text)];
        log := log + [LogLine(LogEntry(ts, Sent, ircClient.value.nick, target, text))];
      }
    }

    /** The `registered` listener of client `s`: join its channels through the
        CURRENT client, then log and announce "Connected". With channels to
        join and no current client, the first join throws and the listener
        stops there. */
    method OnRegistered(s: Session, ts: string, time: string)
      requires Valid() && s in created
      modifies this`calls, this`log, this`ui
      ensures Valid()
      ensures if |s.channels| > 0 && ircClient.None? then
                calls == old(calls) && log == old(log) && ui == old(ui)
              else
                && calls == old(calls) + (if |s.channels| > 0 then JoinCalls(ircClient.value.id, s.channels) else [])
                && log == old(log) + [LogLine(LogEntry(ts, Sys, "System", "Server",
                                                      "Connected to " + s.server + " as " + s.nick))]
                && ui == old(ui) + UiEvents(StatusData("Connected"), windowOpen, time)
    {
      if |s.channels| > 0 {
        if ircClient.None? {
          return;
        }
        JoinAll(ircClient.value.id, s.channels);
      }
      log := log + [LogLine(LogEntry(ts, Sys, "System", "Server", "Connected to " + s.server + " as " + s.nick))];
      ui := ui + UiEvents(StatusData("Connected"), windowOpen, time);
    }

    /** `channels.forEach(channel => ircClient.join(channel))`. */
    method JoinAll(id: nat, channels: seq<string>)
      modifies this`calls
      ensures calls == old(calls) + JoinCalls(id, channels)
    {
      var i := 0;
      while i < |channels|
        invariant 0 <= i <= |channels|
        invariant calls == old(calls) + JoinCalls(id, channels[..i])
      {
        assert channels[..i + 1][..i] == channels[..i];
        calls := calls + [Join(id, channels[i])];
        i := i + 1;
      }
      assert channels[..i] == channels;
    }

    /** The `join` listener. */
    method OnJoin(nick: string, channel: string, ts: string, time: string)
      requires Valid()
      modifies this`log, this`ui
      ensures Valid()
      ensures log == old(log) + [LogLine(LogEntry(ts, Sys, nick, channel, "Joined channel"))]
      ensures ui == old(ui) + UiEvents(UiData("system", nick, channel, "joined"), windowOpen, time)
    {
      log := log + [LogLine(LogEntry(ts, Sys, nick, channel, "Joined channel"))];
      ui := ui + UiEvents(UiData("system", nick, channel, "joined"), windowOpen, time);
    }

    /** The `message` listener. */
    method OnMessage(nick: string, target: string, text: string, ts: string, time: string)
      requires Valid()
      modifies this`log, this`ui
      ensures Valid()
      ensures log == old(log) + [LogLine(LogEntry(ts, Msg, nick, target, text))]
      ensures ui == old(ui) + UiEvents(UiData("message", nick, target, text), windowOpen, time)
    {
      log := log + [LogLine(LogEntry(ts, Msg, nick, target, text))];
      ui := ui + UiEvents(UiData("message", nick, target, text), windowOpen, time);
    }
  }

  /** Two `disconnect` calls in a row: the second changes nothing. */
  method DisconnectTwice(b: Backend)
    requires b.Valid()
    modifies b
    ensures b.Valid() && b.ircClient.None?
    ensures b.calls == old(b.calls) + QuitCall(old(b.ircClient))
    ensures b.log == old(b.log) && b.ui == old(b.ui)
  {
    var first := b.Disconnect();
    var after := b.calls;
    var second := b.Disconnect();
    assert b.calls == after;
  }
}
