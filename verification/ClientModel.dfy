/** The client's room state and its transitions, as functions of the state before. */
module ClientModel {
  import opened Common
  import opened Network

  datatype Sender = Me | Server | System

  type U32 = n: int | 0 <= n < TWO32

  datatype ChatRoom = ChatRoom(id: U64, name: string, unread: U32)

  datatype ChatMessage = ChatMessage(roomId: U64, text: string, sender: Sender)

  /** `online`: a connection has been opened, so there is a channel to the TCP task. */
  datatype Client = Client(rooms: seq<ChatRoom>, messages: seq<ChatMessage>, active: Option<U64>, online: bool)

  const Start := Client([], [], None, false)

  // ---------------------------------------------------------------------------
  // Searching, re-keying, filtering
  // ---------------------------------------------------------------------------

  function RoomIsCalled(name: string): ChatRoom -> bool {
    (room: ChatRoom) => room.name == name
  }

  function RoomHasId(id: U64): ChatRoom -> bool {
    (room: ChatRoom) => room.id == id
  }

  /** The first room of that name. */
  function IndexOfName(rooms: seq<ChatRoom>, name: string): (r: Option<nat>)
    ensures r.Some? ==> r.value < |rooms| && rooms[r.value].name == name
    ensures r.Some? ==> forall k :: 0 <= k < r.value ==> rooms[k].name != name
    ensures r.None? ==> forall k :: 0 <= k < |rooms| ==> rooms[k].name != name
  {
    FirstFrom(rooms, RoomIsCalled(name), 0)
  }

  /** The first room with that id. */
  function IndexOfId(rooms: seq<ChatRoom>, id: U64): (r: Option<nat>)
    ensures r.Some? ==> r.value < |rooms| && rooms[r.value].id == id
    ensures r.Some? ==> forall k :: 0 <= k < r.value ==> rooms[k].id != id
    ensures r.None? ==> forall k :: 0 <= k < |rooms| ==> rooms[k].id != id
  {
    FirstFrom(rooms, RoomHasId(id), 0)
  }

  function Rekey(m: ChatMessage, was: U64, id: U64): ChatMessage {
    if m.roomId == was then m.(roomId := id) else m
  }

  function RekeyAll(ms: seq<ChatMessage>, was: U64, id: U64): (r: seq<ChatMessage>)
    ensures |r| == |ms| && forall k :: 0 <= k < |ms| ==> r[k] == Rekey(ms[k], was, id)
  {
    seq(|ms|, k requires 0 <= k < |ms| => Rekey(ms[k], was, id))
  }

  function RoomsWithout(rooms: seq<ChatRoom>, id: U64): seq<ChatRoom> {
    if rooms == [] then []
    else
      var last := rooms[|rooms| - 1];
      RoomsWithout(rooms[..|rooms| - 1], id) + (if last.id != id then [last] else [])
  }

  function MessagesWithout(ms: seq<ChatMessage>, id: U64): seq<ChatMessage> {
    if ms == [] then []
    else
      var last := ms[|ms| - 1];
      MessagesWithout(ms[..|ms| - 1], id) + (if last.roomId != id then [last] else [])
  }

  function MaxId(rooms: seq<ChatRoom>): (m: U64)
    ensures forall k :: 0 <= k < |rooms| ==> rooms[k].id <= m
    ensures m == 0 || exists k :: 0 <= k < |rooms| && rooms[k].id == m
  {
    if rooms == [] then 0
    else
      var last := rooms[|rooms| - 1].id;
      var m := MaxId(rooms[..|rooms| - 1]);
      if last > m then last else m
  }

  // ---------------------------------------------------------------------------
  // Transitions
  // ---------------------------------------------------------------------------

  /** `csub_ok`: the first room of that name gets the server's id, and all that refers to it follows. */
  function ConfirmCreate(c: Client, id: U64, name: string): Client {
    match IndexOfName(c.rooms, name)
    case None => c
    case Some(i) =>
      var was := c.rooms[i].id;
      if was == id then c
      else c.(rooms := c.rooms[i := c.rooms[i].(id := id)],
              messages := RekeyAll(c.messages, was, id),
              active := if c.active == Some(was) then Some(id) else c.active)
  }

  /** `sub_ok`: the room of that id gets the server's name. */
  function ConfirmSubscribe(c: Client, id: U64, name: string): Client {
    match IndexOfId(c.rooms, id)
    case None => c
    case Some(i) => c.(rooms := c.rooms[i := c.rooms[i].(name := name)])
  }

  function Bump(rooms: seq<ChatRoom>, id: U64): seq<ChatRoom> {
    match IndexOfId(rooms, id)
    case None => rooms
    case Some(i) => rooms[i := rooms[i].(unread := (rooms[i].unread + 1) % TWO32)]
  }

  /** A relayed message goes to the first room of its group's name, and is dropped if there is none. */
  function Deliver(c: Client, group: string, text: string): Client {
    match IndexOfName(c.rooms, group)
    case None => c
    case Some(i) =>
      var id := c.rooms[i].id;
      c.(messages := c.messages + [ChatMessage(id, text, Server)],
         rooms := if c.active == Some(id) then c.rooms else Bump(c.rooms, id))
  }

  function HandleEvent(c: Client, e: FromServer): Client {
    match e
    case RoomConfirmed(id, name, isCreate) =>
      if isCreate then ConfirmCreate(c, id, name) else ConfirmSubscribe(c, id, name)
    case Message(group, text) => Deliver(c, group, text)
    case _ => c
  }

  /** A room and its opening system message. */
  function Enter(c: Client, id: U64, name: string, text: string): Client {
    c.(rooms := c.rooms + [ChatRoom(id, name, 0)], messages := c.messages + [ChatMessage(id, text, System)])
  }

  function CreatedText(name: string): string {
    "Created and joined room \"" + name + "\""
  }

  function SubscribedText(id: U64): string {
    "Subscribed to room #" + Digits(id)
  }

  function NextId(rooms: seq<ChatRoom>): U64 {
    (MaxId(rooms) + 1) % TWO64
  }

  function Create(c: Client, name: string): Client {
    if name == "" || !c.online then c
    else Enter(c, NextId(c.rooms), name, CreatedText(name))
  }

  /** `id` is `None` when the input is empty or not a number. */
  function SubscribeTo(c: Client, id: Option<U64>): Client {
    if id.None? || IndexOfId(c.rooms, id.value).Some? || !c.online then c
    else Enter(c, id.value, Placeholder(id.value), SubscribedText(id.value))
  }

  function Select(c: Client, id: U64): Client {
    var c' := c.(active := Some(id));
    match IndexOfId(c.rooms, id)
    case None => c'
    case Some(i) => c'.(rooms := c.rooms[i := c.rooms[i].(unread := 0)])
  }

  function Send(c: Client, id: U64, text: string): Client {
    if text == "" then c else c.(messages := c.messages + [ChatMessage(id, text, Me)])
  }

  function Drop(c: Client, id: U64): Client {
    c.(rooms := RoomsWithout(c.rooms, id), messages := MessagesWithout(c.messages, id))
  }

  /** The unsubscribe button of a room in the sidebar. */
  function Leave(c: Client, id: U64): Client {
    Drop(c, id).(active := if c.active == Some(id) then None else c.active)
  }

  /** The unsubscribe button of the open room's header. */
  function LeaveOpen(c: Client, id: U64): Client {
    Drop(c, id).(active := None)
  }

  /** The connect button forgets all rooms. */
  function Connect(c: Client): Client {
    Client([], [], None, true)
  }

  datatype Op =
    | OnEvent(e: FromServer)
    | DoCreate(name: string)
    | DoSubscribe(input: Option<U64>)
    | DoSelect(id: U64)
    | DoSend(id: U64, text: string)
    | DoLeave(id: U64)
    | DoLeaveOpen(id: U64)
    | DoConnect

  function Do(c: Client, op: Op): Client {
    match op
    case OnEvent(e) => HandleEvent(c, e)
    case DoCreate(name) => Create(c, name)
    case DoSubscribe(id) => SubscribeTo(c, id)
    case DoSelect(id) => Select(c, id)
    case DoSend(id, text) => Send(c, id, text)
    case DoLeave(id) => Leave(c, id)
    case DoLeaveOpen(id) => LeaveOpen(c, id)
    case DoConnect => Connect(c)
  }

  function DoAll(ops: seq<Op>): Client {
    if ops == [] then Start else Do(DoAll(ops[..|ops| - 1]), ops[|ops| - 1])
  }

  /** `MessageList`: the messages shown for a room. */
  function Shown(ms: seq<ChatMessage>, id: U64): seq<ChatMessage> {
    if ms == [] then []
    else
      var last := ms[|ms| - 1];
      Shown(ms[..|ms| - 1], id) + (if last.roomId == id then [last] else [])
  }

  predicate Listed(c: Client, id: U64) {
    exists k :: 0 <= k < |c.rooms| && c.rooms[k].id == id
  }
}
