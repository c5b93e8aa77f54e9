/** The application shell (src/App.jsx): the five-state view machine driven
    by the connect, cancel and disconnect handlers, the status listener and
    the two half-second timers, together with the class lists of the three
    layers and the rule that mounts the chat layer. Timers are explicit:
    scheduling appends to a queue, and firing takes the oldest one. */
module AppShell {
  import opened Common
  import opened IntroForm

  datatype View = Intro | Connecting | TransitionToChat | Chat | TransitionToIntro

  /** The two `setTimeout` callbacks: the one `handleDisconnect` schedules and
      the one the status listener schedules. */
  datatype Timer = ShowIntro | ShowChat

  /** Calls into the main process through `window.ircAPI`. */
  datatype Command = ConnectCmd(details: Payload) | DisconnectCmd

  /** `viewState`, `connectionDetails`, the pending timers (oldest first) and
      the calls made so far. */
  datatype Screen = Screen(view: View, details: Option<Payload>, timers: seq<Timer>, commands: seq<Command>)

  function Initial(): Screen {
    Screen(Intro, None, [], [])
  }

  // ---------------------------------------------------------------------
  // Transitions

  /** `handleConnect`: the details mount the chat layer at once, the details
      go to the main process, and timers already pending stay queued. */
  function Connect(s: Screen, d: Payload): (r: Screen)
    ensures r.view == Connecting && r.details == Some(d) && ChatMounted(r)
    ensures r.commands == s.commands + [ConnectCmd(d)] && r.timers == s.timers
  {
    s.(view := Connecting, details := Some(d), commands := s.commands + [ConnectCmd(d)])
  }

  /** `handleDisconnect`: no call to the main process, only a timer; the
      details, and so the chat layer, stay until it fires. */
  function Disconnect(s: Screen): (r: Screen)
    ensures r.view == TransitionToIntro && ChatMounted(r)
    ensures r.details == s.details && r.commands == s.commands
    ensures r.timers == s.timers + [ShowIntro]
  {
    s.(view := TransitionToIntro, timers := s.timers + [ShowIntro])
  }

  /** `handleCancelConnection`: the main process is told to disconnect and
      the chat layer goes at once, but no pending timer is cancelled. */
  function Cancel(s: Screen): (r: Screen)
    ensures r.view == Intro && !ChatMounted(r)
    ensures r.commands == s.commands + [DisconnectCmd] && r.timers == s.timers
  {
    s.(view := Intro, details := None, commands := s.commands + [DisconnectCmd])
  }

  /** The `onStatus` listener: only the exact text "Connected" matters, and it
      matters in every state; it never touches the details or calls the main
      process. */
  function OnStatus(s: Screen, status: string): (r: Screen)
    ensures r.details == s.details && r.commands == s.commands
    ensures r == s || r.view == TransitionToChat
  {
    if status == "Connected" then s.(view := TransitionToChat, timers := s.timers + [ShowChat]) else s
  }

  /** The oldest pending timer fires. Neither callback checks the state it
      finds; the intro one clears the details, the chat one keeps them. */
  function Fire(s: Screen): (r: Screen)
    requires |s.timers| > 0
    ensures r.timers == s.timers[1..] && r.commands == s.commands
    ensures s.timers[0] == ShowIntro ==> r.view == Intro && r.details.None?
    ensures s.timers[0] == ShowChat ==> r.view == Chat && r.details == s.details
  {
    match s.timers[0]
    case ShowIntro => s.(view := Intro, details := None, timers := s.timers[1..])
    case ShowChat => s.(view := Chat, timers := s.timers[1..])
  }

  /** Every pending timer fires, oldest first. Timers never call the main
      process and never bring details back. */
  function FireAll(s: Screen): (r: Screen)
    ensures r.timers == [] && r.commands == s.commands
    ensures s.details.None? ==> r.details.None?
    decreases |s.timers|
  {
    if s.timers == [] then s else FireAll(Fire(s))
  }

  // ---------------------------------------------------------------------
  // Properties of the machine

  /** After "Connected", whatever the state, the view is `transition-to-chat`
      with a `chat` timer queued behind the pending ones; any other status
      changes nothing. */
  lemma OnStatusEffect(s: Screen, status: string)
    ensures status == "Connected" ==>
              && OnStatus(s, status).view == TransitionToChat
              && OnStatus(s, status).timers == s.timers + [ShowChat]
              && OnStatus(s, status).details == s.details
              && OnStatus(s, status).commands == s.commands
    ensures status != "Connected" ==> OnStatus(s, status) == s
  {
  }

  /** Once every timer has fired, the last one decides the view. */
  lemma {:induction false} FireAllLast(s: Screen)
    requires |s.timers| > 0
    ensures s.timers[|s.timers| - 1] == ShowChat ==> FireAll(s).view == Chat
    ensures s.timers[|s.timers| - 1] == ShowIntro ==> FireAll(s).view == Intro && FireAll(s).details.None?
    decreases |s.timers|
  {
    var t := Fire(s);
    if |s.timers| > 1 {
      assert t.timers[|t.timers| - 1] == s.timers[|s.timers| - 1];
      FireAllLast(t);
    } else {
      assert t.timers == [];
    }
  }

  /** A pending intro timer clears the details for good. */
  lemma {:induction false} PendingIntroClears(s: Screen)
    requires ShowIntro in s.timers
    ensures FireAll(s).details.None?
    decreases |s.timers|
  {
    if s.timers[0] != ShowIntro {
      assert s.timers == [s.timers[0]] + s.timers[1..];
      PendingIntroClears(Fire(s));
    }
  }

  /** A "Connected" status leads to the chat view once the timers have run,
      from any state. */
  lemma ConnectedReachesChat(s: Screen)
    ensures OnStatus(s, "Connected").view == TransitionToChat
    ensures FireAll(OnStatus(s, "Connected")).view == Chat
  {
    FireAllLast(OnStatus(s, "Connected"));
  }

  /** `handleDisconnect` keeps the details until its timer fires; whatever
      else is pending, the shell then returns to the intro with no details
      and the chat layer unmounted. */
  lemma DisconnectReturnsToIntro(s: Screen)
    ensures Disconnect(s).details == s.details && Disconnect(s).commands == s.commands
    ensures ChatMounted(Disconnect(s))
    ensures FireAll(Disconnect(s)).view == Intro && FireAll(Disconnect(s)).details.None?
    ensures !ChatMounted(FireAll(Disconnect(s)))
  {
    FireAllLast(Disconnect(s));
  }

  /** Nothing guards the timers against a later event: a "Connected" that
      arrives while an intro timer is pending leaves the shell in the chat
      view with no details, and so with the chat layer unmounted. */
  lemma LateConnectedLeavesEmptyChat(s: Screen)
    requires ShowIntro in s.timers
    ensures var t := FireAll(OnStatus(s, "Connected"));
            && t.view == Chat
            && t.details.None?
            && !ChatMounted(t)
  {
    var c := OnStatus(s, "Connected");
    assert c.timers == s.timers + [ShowChat];
    assert ShowIntro in c.timers;
    ConnectedReachesChat(s);
    PendingIntroClears(c);
  }

  // ---------------------------------------------------------------------
  // Layers

  /** The Chat layer is rendered when there are details or while the shell
      fades back to the intro. */
  predicate ChatMounted(s: Screen) {
    s.details.Some? || s.view == TransitionToIntro
  }

  /** While the shell fades back to the intro, the details are still there. */
  predicate FadeHasDetails(s: Screen) {
    s.view == TransitionToIntro ==> s.details.Some?
  }

  /** `FadeHasDetails` holds at the start and after every transition, given
      that `handleDisconnect` is only reached from the chat pane's QUIT
      button, which exists only while the chat layer is mounted. So a
      mounted chat layer always has details, and the `connectionDetails || {}`
      fallback never yields `{}`. */
  lemma FadeKeepsDetails(s: Screen, d: Payload, status: string)
    requires FadeHasDetails(s)
    ensures FadeHasDetails(Initial())
    ensures FadeHasDetails(Connect(s, d)) && FadeHasDetails(Cancel(s))
    ensures FadeHasDetails(OnStatus(s, status))
    ensures ChatMounted(s) ==> FadeHasDetails(Disconnect(s))
    ensures |s.timers| > 0 ==> FadeHasDetails(Fire(s))
    ensures ChatMounted(s) ==> s.details.Some?
  {
  }

  /** The class lists of `getIntroStyle`, `getConnectingStyle` and
      `getChatStyle`; every view is one of the five, so the empty `default`
      of the first and the last is never produced. */
  function IntroClasses(v: View): (r: seq<string>)
    ensures |r| >= 4 && forall i :: 0 <= i < |r| ==> ClassToken(r[i])
  {
    match v
    case Intro | Connecting | TransitionToIntro => ["opacity-100", "scale-100", "translate-y-0", "z-20"]
    case TransitionToChat => ["opacity-0", "scale-95", "-translate-y-10", "z-20", "pointer-events-none"]
    case Chat => ["opacity-0", "scale-95", "-translate-y-10", "z-0", "pointer-events-none"]
  }

  function ConnectingClasses(v: View): (r: seq<string>)
    ensures |r| >= 4 && forall i :: 0 <= i < |r| ==> ClassToken(r[i])
  {
    match v
    case Connecting => ["opacity-100", "scale-100", "translate-y-0", "z-50"]
    case TransitionToChat => ["opacity-0", "scale-95", "-translate-y-10", "z-50", "pointer-events-none"]
    case _ => ["opacity-0", "scale-95", "translate-y-10", "z-0", "pointer-events-none"]
  }

  function ChatClasses(v: View): (r: seq<string>)
    ensures |r| >= 4 && forall i :: 0 <= i < |r| ==> ClassToken(r[i])
  {
    match v
    case TransitionToChat | Chat => ["opacity-100", "scale-100", "translate-y-0", "z-10"]
    case Intro | Connecting | TransitionToIntro => ["opacity-0", "scale-95", "translate-y-10", "z-0", "pointer-events-none"]
  }

  /** The `className` string: the classes separated by single spaces. */
  function ClassName(classes: seq<string>): string {
    Join(classes, ' ')
  }

  /** A class name: non-empty and without spaces. */
  predicate ClassToken(c: string) {
    c != [] && ' ' !in c
  }

  /** The browser's class list of a style string: its space-separated parts. */
  function ClassList(style: string): seq<string> {
    Split(style, ' ')
  }

  /** Splitting the `className` string gives back the classes. */
  lemma ClassListOfName(classes: seq<string>)
    requires |classes| >= 1 && forall i :: 0 <= i < |classes| ==> ClassToken(classes[i])
    ensures ClassList(ClassName(classes)) == classes
  {
    SplitJoin(classes, ' ');
  }

  /** Which layers let pointer events through: the connecting overlay only
      in `connecting`; the chat layer only in the two chat views; the intro
      layer everywhere except there. */
  lemma PointerEvents(v: View)
    ensures "pointer-events-none" in ConnectingClasses(v) <==> v != Connecting
    ensures "pointer-events-none" in ChatClasses(v) <==> !(v == TransitionToChat || v == Chat)
    ensures "pointer-events-none" in IntroClasses(v) <==> (v == TransitionToChat || v == Chat)
  {
  }

  /** Each layer's `className` string carries exactly its class list. */
  lemma IntroClassList(v: View)
    ensures ClassList(ClassName(IntroClasses(v))) == IntroClasses(v)
  {
    ClassListOfName(IntroClasses(v));
  }

  lemma ConnectingClassList(v: View)
    ensures ClassList(ClassName(ConnectingClasses(v))) == ConnectingClasses(v)
  {
    ClassListOfName(ConnectingClasses(v));
  }

  lemma ChatClassList(v: View)
    ensures ClassList(ClassName(ChatClasses(v))) == ChatClasses(v)
  {
    ClassListOfName(ChatClasses(v));
  }

  // ---------------------------------------------------------------------
  // The component's state

  class App {
    var view: View
    var details: Option<Payload>
    var timers: seq<Timer>
    var commands: seq<Command>

    function Snapshot(): Screen
      reads this
    {
      Screen(view, details, timers, commands)
    }

    constructor ()
      ensures Snapshot() == Initial()
    {
      view := Intro;
      details := None;
      timers := [];
      commands := [];
    }

    method HandleConnect(d: Payload)
      modifies this
      ensures Snapshot() == Connect(old(Snapshot()), d)
    {
      details := Some(d);
      view := Connecting;
      commands := commands + [ConnectCmd(d)];
    }

    method HandleDisconnect()
      modifies this
      ensures Snapshot() == Disconnect(old(Snapshot()))
    {
      view := TransitionToIntro;
      timers := timers + [ShowIntro];
    }

    method HandleCancelConnection()
      modifies this
      ensures Snapshot() == Cancel(old(Snapshot()))
    {
      commands := commands + [DisconnectCmd];
      view := Intro;
      details := None;
    }

    method HandleStatus(status: string)
      modifies this
      ensures Snapshot() == OnStatus(old(Snapshot()), status)
    {
      if status == "Connected" {
        view := TransitionToChat;
        timers := timers + [ShowChat];
      }
    }

    method FireTimer()
      requires |timers| > 0
      modifies this
      ensures Snapshot() == Fire(old(Snapshot()))
    {
      var t := timers[0];
      timers := timers[1..];
      match t
      case ShowIntro =>
        view := Intro;
        details := None;
      case ShowChat =>
        view := Chat;
    }
  }
}
