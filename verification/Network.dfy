/** How the client reads the server's frames: `classify_server_message`. */
module Network {
  import opened Common
  import opened Requests

  /** The values a JSON `grp` field can have that the client tells apart. */
  datatype Grp = Number(n: U64) | Str(s: string)

  /** `ServerIncoming`: every field is optional. */
  datatype Incoming = Incoming(grp: Option<Grp>, message: Option<string>, kind: Option<string>,
                               data: Option<string>, grpName: Option<string>)

  datatype FromServer =
    | Connected
    | Message(groupName: string, text: string)
    | RoomConfirmed(serverRoomId: U64, roomName: string, isCreate: bool)
    | Error(text: string)
    | Disconnected

  function OrElse<T>(a: Option<T>, b: T): T {
    if a.Some? then a.value else b
  }

  function Digits(n: nat): string {
    if n < 10 then [('0' as int + n) as char] else Digits(n / 10) + [('0' as int + n % 10) as char]
  }

  /** The name a room has locally until the server's name is known. */
  function Placeholder(id: U64): string {
    "Room #" + Digits(id)
  }

  function Classify(msg: Incoming, raw: string): FromServer {
    match msg.kind
    case Some(kind) =>
      if kind == "sub_ok" || kind == "csub_ok" then
        if msg.grp.Some? && msg.grp.value.Number? then
          var id := msg.grp.value.n;
          RoomConfirmed(id, OrElse(msg.grpName, Placeholder(id)), kind == "csub_ok")
        else Error("sub_ok/csub_ok missing numeric grp: " + raw)
      else if kind == "message" then Message(OrElse(msg.grpName, "unknown"), OrElse(msg.data, raw))
      else Error(raw)
    case None =>
      var group := if msg.grp.Some? && msg.grp.value.Str? then msg.grp.value.s else OrElse(msg.grpName, "unknown");
      Message(group, if msg.message.Some? then msg.message.value else OrElse(msg.data, raw))
  }

  /** The JSON object the server builds for a frame; `None` for its plain-text replies. */
  function Encode(w: Wire): Option<Incoming> {
    match w
    case SubOk(grp, name) => Some(Incoming(Some(Number(grp)), None, Some("sub_ok"), None, Some(name)))
    case CsubOk(grp, name) => Some(Incoming(Some(Number(grp)), None, Some("csub_ok"), None, Some(name)))
    case Relay(data, name) => Some(Incoming(None, None, Some("message"), Some(data), Some(name)))
    case Plain(_) => None
  }

  /** The event the client makes of a frame whose line is `raw`; plain text does not parse as JSON. */
  function EventOf(w: Wire, raw: string): FromServer {
    match Encode(w)
    case Some(msg) => Classify(msg, raw)
    case None => Error(raw)
  }

  /** Every frame the server builds is understood: the event has the frame's own id, name and text. */
  lemma FramesAreUnderstood(w: Wire, raw: string)
    ensures EventOf(w, raw) == match w
                               case SubOk(grp, name) => RoomConfirmed(grp, name, false)
                               case CsubOk(grp, name) => RoomConfirmed(grp, name, true)
                               case Relay(data, name) => Message(name, data)
                               case Plain(_) => Error(raw)
  {
    assert "sub_ok"[0] != "message"[0] && "csub_ok"[0] != "sub_ok"[0] && "csub_ok"[0] != "message"[0];
  }

  /** Frames that differ are told apart, whatever their lines are, up to the plain-text replies. */
  lemma FramesAreToldApart(w: Wire, w': Wire, raw: string, raw': string)
    requires EventOf(w, raw) == EventOf(w', raw') && !w.Plain?
    ensures w == w'
  {
    FramesAreUnderstood(w, raw);
    FramesAreUnderstood(w', raw');
  }

  /** A subscription's confirmation is understood as the one it is, with the room's own id and name. */
  lemma ConfirmationIsUnderstood(key: Key, created: bool, raw: string)
    ensures EventOf(Confirmation(key, created), raw) == RoomConfirmed(key.id, key.name, created)
  {
    FramesAreUnderstood(Confirmation(key, created), raw);
  }

  /** The fallbacks of the decoder, field by field, for everything a server could send. */
  lemma ClassifyLaw(msg: Incoming, raw: string)
    ensures var e := Classify(msg, raw);
      && (e.Message? <==> msg.kind.None? || msg.kind == Some("message"))
      && (e.RoomConfirmed? <==>
            (msg.kind == Some("sub_ok") || msg.kind == Some("csub_ok")) && msg.grp.Some? && msg.grp.value.Number?)
      && (e.Error? <==> !e.Message? && !e.RoomConfirmed?)
      && (e.RoomConfirmed? ==>
            e.serverRoomId == msg.grp.value.n && (e.isCreate <==> msg.kind == Some("csub_ok")) &&
            (msg.grpName.Some? ==> e.roomName == msg.grpName.value) &&
            (msg.grpName.None? ==> e.roomName == "Room #" + Digits(msg.grp.value.n)))
      && (e.Message? && msg.kind.None? && msg.grp.Some? && msg.grp.value.Str? ==> e.groupName == msg.grp.value.s)
      && (e.Message? && !(msg.kind.None? && msg.grp.Some? && msg.grp.value.Str?) ==>
            (msg.grpName.Some? ==> e.groupName == msg.grpName.value) &&
            (msg.grpName.None? ==> e.groupName == "unknown"))
      && (e.Message? && msg.kind.None? && msg.message.Some? ==> e.text == msg.message.value)
      && (e.Message? && !(msg.kind.None? && msg.message.Some?) ==>
            (msg.data.Some? ==> e.text == msg.data.value) && (msg.data.None? ==> e.text == raw))
      && (e.Error? && msg.kind != Some("sub_ok") && msg.kind != Some("csub_ok") ==> e.text == raw)
  {
  }

  // ---------------------------------------------------------------------------
  // Numbers in names
  // ---------------------------------------------------------------------------

  predicate IsDigit(d: char) {
    '0' <= d <= '9'
  }

  /** The number a string of digits denotes. */
  function ValueOf(s: string): nat
    requires forall k :: 0 <= k < |s| ==> IsDigit(s[k])
  {
    if s == "" then 0
    else
      assert IsDigit(s[|s| - 1]);
      10 * ValueOf(s[..|s| - 1]) + (s[|s| - 1] as int - '0' as int)
  }

  /** The digits of a number denote it, and begin with a zero only for zero. */
  lemma {:induction false} DigitsDenote(n: nat)
    ensures forall k :: 0 <= k < |Digits(n)| ==> IsDigit(Digits(n)[k])
    ensures Digits(n) != "" && ValueOf(Digits(n)) == n && (Digits(n)[0] == '0' ==> n == 0)
    decreases n
  {
    var d := ('0' as int + n % 10) as char;
    if n < 10 {
      assert Digits(n) == [d] && [d][..0] == "";
    } else {
      DigitsDenote(n / 10);
      assert Digits(n)[..|Digits(n)| - 1] == Digits(n / 10);
    }
  }

  /** Two rooms have the same placeholder only if they have the same id. */
  lemma PlaceholdersDiffer(a: U64, b: U64)
    requires Placeholder(a) == Placeholder(b)
    ensures a == b
  {
    DigitsDenote(a);
    DigitsDenote(b);
    assert Placeholder(a)[6..] == Digits(a) && Placeholder(b)[6..] == Digits(b);
  }
}
