/** The connection form (src/components/Intro.jsx): its state, the field and
    proxy updates, the Tor preset, and the submit rule that validates the form
    and turns it into the connection details handed to the application. */
module IntroForm {
  import opened Common

  /** The form as its inputs hold it; `port` is the text of a number input
      and `channels` the raw comma-separated list. */
  datatype FormData = FormData(nick: string, server: string, port: string, channels: string, tls: bool, client: string)

  datatype ProxyConfig = ProxyConfig(enabled: bool, kind: string, host: string, port: string)

  /** What `onConnect` receives: the form with the channel list parsed and the
      proxy settings attached. */
  datatype Payload = Payload(
    nick: string,
    server: string,
    port: string,
    channels: seq<string>,
    tls: bool,
    client: string,
    proxy: ProxyConfig)

  // ---------------------------------------------------------------------
  // Field updates

  /** The inputs wired to `handleChange`, by their `name` attribute. */
  datatype Field = Nick | Server | Port | Channels | Tls

  function FieldName(f: Field): string {
    match f
    case Nick => "nick"
    case Server => "server"
    case Port => "port"
    case Channels => "channels"
    case Tls => "tls"
  }

  datatype FieldValue = Text(text: string) | Flag(flag: bool)

  function Get(d: FormData, f: Field): FieldValue {
    match f
    case Nick => Text(d.nick)
    case Server => Text(d.server)
    case Port => Text(d.port)
    case Channels => Text(d.channels)
    case Tls => Flag(d.tls)
  }

  /** A change event's target: its name, whether it is a checkbox, and its
      value and checked state. */
  datatype InputEvent = InputEvent(name: Field, isCheckbox: bool, value: string, checked: bool)

  /** The form renders exactly one checkbox, the one named `tls`. */
  predicate Wired(ev: InputEvent) {
    ev.isCheckbox <==> ev.name == Tls
  }

  /** The updater `handleChange` gives `setFormData`: the named field takes the
      checked state of a checkbox and the value of any other input. */
  function ApplyChange(d: FormData, ev: InputEvent): (r: FormData)
    requires Wired(ev)
    ensures Get(r, ev.name) == if ev.isCheckbox then Flag(ev.checked) else Text(ev.value)
    ensures forall f :: f != ev.name ==> Get(r, f) == Get(d, f)
    ensures r.client == d.client
  {
    match ev.name
    case Nick => d.(nick := ev.value)
    case Server => d.(server := ev.value)
    case Port => d.(port := ev.value)
    case Channels => d.(channels := ev.value)
    case Tls => d.(tls := ev.checked)
  }

  /** The proxy inputs wired to `handleProxyChange`. */
  datatype ProxyField = ProxyType | ProxyHost | ProxyPort

  function ProxyFieldName(f: ProxyField): string {
    match f
    case ProxyType => "type"
    case ProxyHost => "host"
    case ProxyPort => "port"
  }

  /** The updater `handleProxyChange` gives `setProxyConfig`. */
  function SetProxyField(p: ProxyConfig, f: ProxyField, value: string): (q: ProxyConfig)
    ensures q.enabled == p.enabled
    ensures q.kind == (if f == ProxyType then value else p.kind)
    ensures q.host == (if f == ProxyHost then value else p.host)
    ensures q.port == (if f == ProxyPort then value else p.port)
  {
    match f
    case ProxyType => p.(kind := value)
    case ProxyHost => p.(host := value)
    case ProxyPort => p.(port := value)
  }

  /** The Tor preset: flip `enabled` and reset the proxy to the local Tor
      SOCKS port, whatever was typed before. */
  function TorToggled(p: ProxyConfig): (q: ProxyConfig)
    ensures q.enabled == !p.enabled
    ensures q.kind == "SOCKS5" && q.host == "127.0.0.1" && q.port == "9050"
  {
    ProxyConfig(!p.enabled, "SOCKS5", "127.0.0.1", "9050")
  }

  // ---------------------------------------------------------------------
  // The channel list

  /** A channel list element: non-empty, trimmed, and free of commas. */
  predicate IsChannelToken(x: string) {
    x != [] && !IsJsSpace(x[0]) && !IsJsSpace(x[|x| - 1]) && ',' !in x
  }

  /** `Boolean` as a filter on strings: only the empty string is dropped. */
  predicate NonEmpty(x: string) {
    x != []
  }

  /** `.map(c => c.trim()).filter(Boolean)`. */
  function Clean(parts: seq<string>): (r: seq<string>)
    ensures |r| <= |parts|
  {
    Filter(NonEmpty, Map(Trim, parts))
  }

  /** `channels.split(',').map(c => c.trim()).filter(Boolean)`. */
  function ParseChannels(s: string): seq<string> {
    Clean(Split(s, ','))
  }

  /** At most one channel per comma-separated piece. */
  lemma ParseChannelsCount(s: string)
    ensures |ParseChannels(s)| <= |Split(s, ',')|
  {
  }

  /** Cleaning comma-free pieces leaves only channel tokens. */
  lemma CleanGivesTokens(parts: seq<string>)
    requires forall i :: 0 <= i < |parts| ==> ',' !in parts[i]
    ensures forall i :: 0 <= i < |Clean(parts)| ==> IsChannelToken(Clean(parts)[i])
  {
    var trimmed := Map(Trim, parts);
    forall j | 0 <= j < |trimmed| && trimmed[j] != []
      ensures IsChannelToken(trimmed[j])
    {
      TrimKeeps(parts[j], ',');
    }
    FilterMembers(NonEmpty, trimmed);
  }

  /** Every parsed channel is non-empty, trimmed and free of commas. */
  lemma ParseChannelsTokens(s: string)
    ensures forall i :: 0 <= i < |ParseChannels(s)| ==> IsChannelToken(ParseChannels(s)[i])
  {
    SplitPartsFree(s, ',');
    CleanGivesTokens(Split(s, ','));
  }

  /** Cleaning keeps the order of the pieces. */
  lemma CleanAppend(a: seq<string>, b: seq<string>)
    ensures Clean(a + b) == Clean(a) + Clean(b)
  {
    MapAppend(Trim, a, b);
    FilterAppend(NonEmpty, Map(Trim, a), Map(Trim, b));
  }

  /** A list that is already made of channel tokens is left as it is. */
  lemma CleanTokens(xs: seq<string>)
    requires forall i :: 0 <= i < |xs| ==> IsChannelToken(xs[i])
    ensures Clean(xs) == xs
  {
    forall j | 0 <= j < |xs|
      ensures Trim(xs[j]) == xs[j]
    {
      TrimTrimmed(xs[j]);
    }
    MapFixed(Trim, xs);
    FilterAll(NonEmpty, xs);
  }

  /** A piece without commas gives its trimmed self, unless it is blank. */
  lemma ParseOnePiece(s: string)
    requires ',' !in s
    ensures ParseChannels(s) == if Trim(s) == [] then [] else [Trim(s)]
  {
    SplitNoSeparator(s, ',');
    assert Map(Trim, [s]) == [Trim(s)];
  }

  /** The pieces on either side of a comma are parsed independently and keep
      their order. */
  lemma ParseAroundComma(a: string, b: string)
    ensures ParseChannels(a + "," + b) == ParseChannels(a) + ParseChannels(b)
  {
    SplitAround(a, b, ',');
    assert a + "," + b == a + [','] + b;
    CleanAppend(Split(a, ','), Split(b, ','));
  }

  /** A list of channel tokens joined with commas parses back to itself. */
  lemma ParseJoinTokens(xs: seq<string>)
    requires forall i :: 0 <= i < |xs| ==> IsChannelToken(xs[i])
    ensures ParseChannels(Join(xs, ',')) == xs
  {
    if xs == [] {
      assert Split([], ',') == [[]];
      assert Map(Trim, [[]]) == [[]];
    } else {
      SplitJoin(xs, ',');
      CleanTokens(xs);
    }
  }

  /** Parsing is idempotent: joining the parsed list with commas and parsing
      again gives the same list. */
  lemma ParseChannelsIdempotent(s: string)
    ensures ParseChannels(Join(ParseChannels(s), ',')) == ParseChannels(s)
  {
    ParseChannelsTokens(s);
    ParseJoinTokens(ParseChannels(s));
  }

  // ---------------------------------------------------------------------
  // Submitting

  datatype SubmitResult = Rejected(status: string) | Accepted(status: string, payload: Payload)

  /** `handleSubmit`'s decision: the status it shows and, unless the nick or
      the server is empty, the payload it hands to `onConnect`. */
  function Submit(d: FormData, p: ProxyConfig): (r: SubmitResult)
    ensures r.Rejected? <==> d.nick == [] || d.server == []
    ensures r.Rejected? ==> r.status == "ERROR: MISSING_REQUIRED_FIELDS"
    ensures r.Accepted? ==> r.status == (if p.enabled then "ESTABLISHING_SECURE_TUNNEL..." else "INITIATING_HANDSHAKE...")
    ensures r.Accepted? ==>
              && r.payload.channels == ParseChannels(d.channels) && r.payload.proxy == p
              && r.payload.nick == d.nick && r.payload.server == d.server && r.payload.port == d.port
              && r.payload.tls == d.tls && r.payload.client == d.client
  {
    if d.nick == [] || d.server == [] then Rejected("ERROR: MISSING_REQUIRED_FIELDS")
    else
      Accepted(if p.enabled then "ESTABLISHING_SECURE_TUNNEL..." else "INITIATING_HANDSHAKE...",
               Payload(d.nick, d.server, d.port, ParseChannels(d.channels), d.tls, d.client, p))
  }

  // ---------------------------------------------------------------------
  // The component's state

  class Form {
    var formData: FormData
    var proxyConfig: ProxyConfig
    var status: string
    /** The payloads passed to `onConnect`, in order. */
    var submitted: seq<Payload>

    constructor ()
      ensures formData == FormData("", "thepiratesplunder.org", "6697", "#TPP", true, "jbIRC")
      ensures proxyConfig == ProxyConfig(false, "SOCKS5", "127.0.0.1", "9050")
      ensures status == "READY TO INITIALIZE..." && submitted == []
    {
      formData := FormData("", "thepiratesplunder.org", "6697", "#TPP", true, "jbIRC");
      proxyConfig := ProxyConfig(false, "SOCKS5", "127.0.0.1", "9050");
      status := "READY TO INITIALIZE...";
      submitted := [];
    }

    method HandleChange(ev: InputEvent)
      requires Wired(ev)
      modifies this`formData, this`status
      ensures formData == ApplyChange(old(formData), ev)
      ensures status == "INPUT_UPDATE: " + UpperAscii(FieldName(ev.name))
    {
      formData := ApplyChange(formData, ev);
      status := "INPUT_UPDATE: " + UpperAscii(FieldName(ev.name));
    }

    method HandleProxyChange(f: ProxyField, value: string)
      modifies this`proxyConfig, this`status
      ensures proxyConfig == SetProxyField(old(proxyConfig), f, value)
      ensures status == "PROXY_CONFIG: " + UpperAscii(ProxyFieldName(f))
    {
      proxyConfig := SetProxyField(proxyConfig, f, value);
      status := "PROXY_CONFIG: " + UpperAscii(ProxyFieldName(f));
    }

    method ToggleTor()
      modifies this`proxyConfig, this`status
      ensures proxyConfig == TorToggled(old(proxyConfig))
      ensures status == if proxyConfig.enabled then "MODULE_LOADED: TOR_SOCKS5" else "MODULE_UNLOADED: PROXY"
    {
      var newState := !proxyConfig.enabled;
      proxyConfig := ProxyConfig(newState, "SOCKS5", "127.0.0.1", "9050");
      status := if newState then "MODULE_LOADED: TOR_SOCKS5" else "MODULE_UNLOADED: PROXY";
    }

    method HandleSubmit()
      modifies this`status, this`submitted
      ensures var r := Submit(old(formData), old(proxyConfig));
              && status == r.status
              && submitted == old(submitted) + (if r.Accepted? then [r.payload] else [])
    {
      var r := Submit(formData, proxyConfig);
      status := r.status;
      if r.Accepted? {
        submitted := submitted + [r.payload];
      }
    }
  }
}
