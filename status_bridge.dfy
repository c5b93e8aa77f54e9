/** Where the main process meets the shell: every event `sendMessageToUI`
    emits puts its `message` on the status channel, and the shell's status
    listener reacts to the text "Connected" alone. So an ordinary chat
    message whose body is "Connected" moves the shell to the chat view. */
module StatusBridge {
  import opened Common
  import opened MainProcess
  import opened AppShell

  /** The shell's status listener run over the events one `sendMessageToUI`
      call emits; message events go to the chat pane, not to the shell.
      Events never change the details or call the main process, and they
      either leave the shell as it was or move it to `transition-to-chat`. */
  function Deliver(s: Screen, events: seq<UiEvent>): (r: Screen)
    ensures r.details == s.details && r.commands == s.commands
    ensures r == s || r.view == TransitionToChat
    decreases |events|
  {
    if events == [] then s
    else if events[0].Status? then Deliver(OnStatus(s, events[0].text), events[1..])
    else Deliver(s, events[1..])
  }

  /** Whatever the kind of event (a chat message, a join notice, a status),
      when its text is "Connected" and the window is open, the shell moves to
      `transition-to-chat` with one more `chat` timer queued, and reaches the
      chat view once the timers have run. */
  lemma ConnectedTextOpensChat(s: Screen, d: UiData, time: string)
    requires d.message == "Connected"
    ensures var t := Deliver(s, UiEvents(d, true, time));
            && t.view == TransitionToChat
            && t.timers == s.timers + [ShowChat]
            && t.details == s.details && t.commands == s.commands
            && FireAll(t).view == Chat
  {
    var events := UiEvents(d, true, time);
    var t := OnStatus(s, "Connected");
    assert Deliver(s, events) == Deliver(t, events[1..]);
    if |events| == 2 {
      assert events[1..] == [events[1]];
      assert Deliver(t, events[1..]) == Deliver(t, []);
    }
    ConnectedReachesChat(s);
  }

  /** An incoming chat message whose body is exactly "Connected" is the
      same case: the `message` listener forwards it with type `message`. */
  lemma ChatMessageConnectedOpensChat(s: Screen, nick: string, target: string, time: string)
    ensures var t := Deliver(s, UiEvents(UiData("message", nick, target, "Connected"), true, time));
            t.view == TransitionToChat && FireAll(t).view == Chat
  {
    ConnectedTextOpensChat(s, UiData("message", nick, target, "Connected"), time);
  }

  /** Any other text, or a closed window, leaves the shell as it was. */
  lemma OtherTextIgnored(s: Screen, d: UiData, windowOpen: bool, time: string)
    requires d.message != "Connected" || !windowOpen
    ensures Deliver(s, UiEvents(d, windowOpen, time)) == s
  {
    var events := UiEvents(d, windowOpen, time);
    if windowOpen {
      assert Deliver(s, events) == Deliver(s, events[1..]);
      if |events| == 2 {
        assert events[1..] == [events[1]];
        assert Deliver(s, events[1..]) == Deliver(s, []);
      }
    }
  }

  /** The `registered` listener's own status is the intended path: it also
      reaches the chat view. */
  lemma RegisteredOpensChat(s: Screen, time: string)
    ensures FireAll(Deliver(s, UiEvents(StatusData("Connected"), true, time))).view == Chat
  {
    ConnectedTextOpensChat(s, StatusData("Connected"), time);
  }
}
