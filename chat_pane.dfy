/** The chat pane (src/components/Chat.jsx): the nick colour hash, the user
    list grown from incoming messages, and the pane's state with its two
    handlers, one for incoming messages and one for the input form. */
module ChatPane {
  import opened Common
  import opened IntroForm

  // ---------------------------------------------------------------------
  // getNickColor

  /** The ten colour classes, in table order. */
  const Palette: seq<string> := [
    "text-cyan-400", "text-green-400", "text-emerald-400",
    "text-blue-400", "text-indigo-400", "text-purple-400",
    "text-fuchsia-400", "text-pink-400", "text-rose-400", "text-yellow-400"]

  /** ECMAScript ToInt32 on an integral number: the 32-bit two's-complement
      value with the same low 32 bits. */
  function ToInt32(x: int): (r: int)
    ensures -0x8000_0000 <= r < 0x8000_0000
    ensures (r - x) % 0x1_0000_0000 == 0
  {
    var m := x % 0x1_0000_0000;
    if m >= 0x8000_0000 then m - 0x1_0000_0000 else m
  }

  /** `hash << 5`: both operands go through ToInt32 and so does the result,
      which is `32 * h` modulo 2^32. */
  function ShiftLeft5(h: int): (r: int)
    ensures -0x8000_0000 <= r < 0x8000_0000
    ensures (r - h * 32) % 0x1_0000_0000 == 0
  {
    var t := ToInt32(h);
    var r := ToInt32(t * 32);
    MultipleScaled(t - h, 32);
    MultipleAdd(r - t * 32, 32 * (t - h));
    r
  }

  /** Multiples of 2^32 are closed under addition. */
  lemma MultipleAdd(a: int, b: int)
    requires a % 0x1_0000_0000 == 0 && b % 0x1_0000_0000 == 0
    ensures (a + b) % 0x1_0000_0000 == 0
  {
    assert a == 0x1_0000_0000 * (a / 0x1_0000_0000);
    assert b == 0x1_0000_0000 * (b / 0x1_0000_0000);
    assert a + b == 0x1_0000_0000 * (a / 0x1_0000_0000 + b / 0x1_0000_0000);
  }

  /** A multiple of 2^32 scaled by `k` is still one. */
  lemma MultipleScaled(a: int, k: int)
    requires a % 0x1_0000_0000 == 0
    ensures (k * a) % 0x1_0000_0000 == 0
  {
    var q := a / 0x1_0000_0000;
    assert a == 0x1_0000_0000 * q;
    assert k * a == 0x1_0000_0000 * (k * q);
  }

  /** One iteration: `hash = nick.charCodeAt(i) + ((hash << 5) - hash)`.
      Only the shift wraps; the sum and the difference are exact. Modulo 2^32
      the step is `c + 31 * h`. */
  function HashStep(h: int, c: char): (r: int)
    ensures (r - (c as int + 31 * h)) % 0x1_0000_0000 == 0
  {
    c as int + (ShiftLeft5(h) - h)
  }

  /** The polynomial string hash: the sum of each character code times 31
      raised to the number of characters after it. */
  function PolyHash(s: string): int {
    if s == [] then 0 else 31 * PolyHash(s[..|s| - 1]) + s[|s| - 1] as int
  }

  /** The hash after the loop has consumed all of `s`: modulo 2^32 it is the
      polynomial hash of `s`. */
  function NickHash(s: string): (r: int)
    ensures (r - PolyHash(s)) % 0x1_0000_0000 == 0
  {
    if s == [] then 0
    else
      var p := s[..|s| - 1];
      var h := NickHash(p);
      var r := HashStep(h, s[|s| - 1]);
      MultipleScaled(h - PolyHash(p), 31);
      MultipleAdd(r - (s[|s| - 1] as int + 31 * h), 31 * (h - PolyHash(p)));
      r
  }

  function Abs(x: int): nat {
    if x < 0 then -x else x
  }

  /** The hash grows by less than 2^32 per character, so for any nick shorter
      than 2^21 characters every value the loop computes stays below 2^53 in
      magnitude and `getNickColor`'s double arithmetic is exact. */
  lemma {:induction false} NickHashBound(s: string)
    ensures Abs(NickHash(s)) <= |s| * 0x1_0000_0000
  {
    if s != [] {
      var h := NickHash(s[..|s| - 1]);
      NickHashBound(s[..|s| - 1]);
      assert Abs(h) <= (|s| - 1) * 0x1_0000_0000;
      assert 0 <= s[|s| - 1] as int <= 0x10FFFF;
      assert Abs(NickHash(s)) <= 0x10FFFF + 0x8000_0000 + Abs(h);
    }
  }

  /** A one-character nick hashes to its character code. */
  lemma NickHashSingle(c: char)
    ensures NickHash([c]) == c as int
  {
    assert [c][..0] == [];
  }

  /** `getNickColor`: the loop computes `NickHash`, and the colour is the
      entry at `|hash| mod 10`; the empty nick gets the first entry. */
  method NickColor(nick: string) returns (color: string)
    ensures color == Palette[Abs(NickHash(nick)) % |Palette|]
    ensures color in Palette
    ensures nick == [] ==> color == "text-cyan-400"
  {
    var hash := 0;
    for i := 0 to |nick|
      invariant hash == NickHash(nick[..i])
    {
      assert nick[..i + 1][..i] == nick[..i];
      hash := nick[i] as int + (ShiftLeft5(hash) - hash);
    }
    assert nick[..|nick|] == nick;
    color := Palette[Abs(hash) % |Palette|];
  }

  // ---------------------------------------------------------------------
  // The user list

  /** An entry of the user list; only the own entry carries a client tag. */
  datatype User = User(nick: string, mode: string, client: Option<string>)

  /** `users.find(u => u.nick === nick)`, as the index of the first match. */
  function FindUser(users: seq<User>, nick: string): (r: Option<nat>)
    ensures r.Some? ==> r.value < |users| && users[r.value].nick == nick
    ensures r.Some? ==> forall j :: 0 <= j < r.value ==> users[j].nick != nick
    ensures r.None? <==> forall j :: 0 <= j < |users| ==> users[j].nick != nick
  {
    if users == [] then None
    else if users[0].nick == nick then Some(0)
    else match FindUser(users[1..], nick)
      case None => None
      case Some(k) => Some(k + 1)
  }

  /** No nick appears twice. */
  predicate UniqueNicks(users: seq<User>) {
    forall i, j :: 0 <= i < j < |users| ==> users[i].nick != users[j].nick
  }

  /** The updater `handleIncoming` gives `setUsers`: a message with a
      non-empty sender that is not a system notice adds its sender, with no
      mode, at the end of the list, unless the nick is already listed;
      otherwise the list is left alone. */
  function WithSender(users: seq<User>, msg: ChatMessage): (r: seq<User>)
    ensures |users| <= |r| && r[..|users|] == users
    ensures |r| == |users| + 1 <==>
              msg.nick != [] && msg.kind != "system" && forall j :: 0 <= j < |users| ==> users[j].nick != msg.nick
    ensures |r| == |users| + 1 ==> r[|users|] == User(msg.nick, "", None)
    ensures |r| != |users| + 1 ==> r == users
  {
    if msg.nick != [] && msg.kind != "system" && FindUser(users, msg.nick).None?
    then users + [User(msg.nick, "", None)]
    else users
  }

  /** Nicks stay unique. */
  lemma WithSenderUnique(users: seq<User>, msg: ChatMessage)
    requires UniqueNicks(users)
    ensures UniqueNicks(WithSender(users, msg))
  {
  }

  /** After a message from a real sender, that sender is listed. */
  lemma WithSenderListed(users: seq<User>, msg: ChatMessage)
    requires msg.nick != [] && msg.kind != "system"
    ensures FindUser(WithSender(users, msg), msg.nick).Some?
  {
    var r := WithSender(users, msg);
    if FindUser(users, msg.nick).None? {
      assert r[|users|].nick == msg.nick;
    } else {
      assert r == users;
    }
  }

  // ---------------------------------------------------------------------
  // The pane

  /** What `window.ircAPI.sendMessage` receives; `target` is absent when the
      channel list is empty. */
  datatype SendRequest = SendRequest(target: Option<string>, message: string, client: string)

  /** `connectionDetails.channels[0]`. */
  function CurrentChannel(details: Payload): (c: Option<string>)
    ensures c.Some? <==> |details.channels| > 0
    ensures c.Some? ==> c.value == details.channels[0]
  {
    if |details.channels| > 0 then Some(details.channels[0]) else None
  }

  class Pane {
    const details: Payload
    var messages: seq<ChatMessage>
    var users: seq<User>
    var inputText: string
    /** The `sendMessage` calls made so far, in order. */
    var sent: seq<SendRequest>

    /** The pane as mounted: no messages, an empty input, and the user list
        holding the own nick as operator. */
    constructor (details: Payload)
      ensures this.details == details
      ensures messages == [] && inputText == [] && sent == []
      ensures users == [User(details.nick, "@", Some(details.client))]
      ensures UniqueNicks(users)
    {
      this.details := details;
      messages := [];
      users := [User(details.nick, "@", Some(details.client))];
      inputText := [];
      sent := [];
    }

    /** `handleIncoming`: the message is appended as received and its sender
        may join the user list. */
    method HandleIncoming(msg: ChatMessage)
      modifies this`messages, this`users
      ensures messages == old(messages) + [msg]
      ensures users == WithSender(old(users), msg)
    {
      messages := messages + [msg];
      if msg.nick != [] && msg.kind != "system" {
        var found := FindUser(users, msg.nick);
        if found.None? {
          users := users + [User(msg.nick, "", None)];
        }
      }
    }

    /** The input's `onChange`. */
    method SetInput(text: string)
      modifies this`inputText
      ensures inputText == text
    {
      inputText := text;
    }

    /** `handleSend`: blank input (white space only) is ignored; otherwise
        the untrimmed text goes to the current channel, is echoed under the
        own nick, and the input is cleared. */
    method HandleSend(time: string)
      modifies this`messages, this`sent, this`inputText
      ensures Blank(old(inputText)) ==>
                messages == old(messages) && sent == old(sent) && inputText == old(inputText)
      ensures !Blank(old(inputText)) ==>
                && sent == old(sent) + [SendRequest(CurrentChannel(details), old(inputText), "jbIRC")]
                && messages == old(messages) + [ChatMessage(details.nick, None, old(inputText), "message", time, details.client)]
                && inputText == []
    {
      TrimBlank(inputText);
      if Trim(inputText) == [] {
        return;
      }
      sent := sent + [SendRequest(CurrentChannel(details), inputText, "jbIRC")];
      messages := messages + [ChatMessage(details.nick, None, inputText, "message", time, details.client)];
      inputText := [];
    }
  }
}
