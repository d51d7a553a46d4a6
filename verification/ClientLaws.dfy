/** What each operation does to each room and to the selection, and the way from asking for a room to hearing it. */
module ClientLaws {
  import opened Common
  import opened Network
  import opened ClientModel
  import opened ClientState
  import opened ClientViews

  // ---------------------------------------------------------------------------
  // The selection and the connection
  // ---------------------------------------------------------------------------

  /** Room `k` is the first of its name, or with its id. */
  predicate FirstCalled(rooms: seq<ChatRoom>, name: string, k: nat) {
    k < |rooms| && rooms[k].name == name && forall j :: 0 <= j < k ==> rooms[j].name != name
  }

  predicate FirstWithId(rooms: seq<ChatRoom>, id: U64, k: nat) {
    k < |rooms| && rooms[k].id == id && forall j :: 0 <= j < k ==> rooms[j].id != id
  }

  /** Selecting selects, leaving and connecting clear, a created room takes the selection along, and nothing else. */
  lemma SelectionLaw(c: Client, op: Op)
    ensures var active := Do(c, op).active;
      match op
      case DoSelect(id) => active == Some(id)
      case DoLeave(id) => active == if c.active == Some(id) then None else c.active
      case DoLeaveOpen(_) => active == None
      case DoConnect => active == None
      case OnEvent(RoomConfirmed(id, name, true)) =>
        active == if exists k :: 0 <= k < |c.rooms| && FirstCalled(c.rooms, name, k) && c.active == Some(c.rooms[k].id)
                  then Some(id) else c.active
      case _ => active == c.active
  {
    if op.OnEvent? && op.e.RoomConfirmed? && IndexOfName(c.rooms, op.e.roomName).Some? {
      assert FirstCalled(c.rooms, op.e.roomName, IndexOfName(c.rooms, op.e.roomName).value);
    }
  }

  /** Connecting forgets everything; a client stays connected to its task from then on. */
  lemma ConnectionLaw(c: Client, op: Op)
    ensures Do(c, op).online <==> c.online || op.DoConnect?
    ensures op.DoConnect? ==> Do(c, op).rooms == [] && Do(c, op).messages == []
  {
  }

  // ---------------------------------------------------------------------------
  // The rooms
  // ---------------------------------------------------------------------------

  /** A subscription's confirmation renames the first room with its id. */
  predicate Renames(c: Client, op: Op, k: nat) {
    op.OnEvent? && op.e.RoomConfirmed? && !op.e.isCreate && FirstWithId(c.rooms, op.e.serverRoomId, k)
  }

  /** A creation's confirmation re-keys the first room of its name. */
  predicate Rekeys(c: Client, op: Op, k: nat) {
    op.OnEvent? && op.e.RoomConfirmed? && op.e.isCreate && FirstCalled(c.rooms, op.e.roomName, k)
  }

  predicate Clears(c: Client, op: Op, k: nat) {
    op.DoSelect? && FirstWithId(c.rooms, op.id, k)
  }

  /** A message for a room that is not selected. */
  predicate Alerts(c: Client, op: Op, k: nat) {
    op.OnEvent? && op.e.Message? &&
    exists i :: 0 <= i < |c.rooms| && FirstCalled(c.rooms, op.e.groupName, i) &&
                FirstWithId(c.rooms, c.rooms[i].id, k) && c.active != Some(c.rooms[i].id)
  }

  /** What each operation makes of each room's name, id and unread count. */
  lemma RoomLaw(c: Client, op: Op, k: nat)
    requires k < |c.rooms| && !op.DoConnect? && Dropped(op) == None
    ensures k < |Do(c, op).rooms|
    ensures var r, r' := c.rooms[k], Do(c, op).rooms[k];
      && r'.name == (if Renames(c, op, k) then op.e.roomName else r.name)
      && r'.id == (if Rekeys(c, op, k) then op.e.serverRoomId else r.id)
      && r'.unread == (if Clears(c, op, k) then 0
                       else if Alerts(c, op, k) then (r.unread + 1) % TWO32
                       else r.unread)
  {
    if op.OnEvent? && op.e.Message? && IndexOfName(c.rooms, op.e.groupName).Some? {
      assert FirstCalled(c.rooms, op.e.groupName, IndexOfName(c.rooms, op.e.groupName).value);
    }
  }

  /** A room is added by creating and by subscribing, at the end, and by nothing else. */
  lemma NewRoomLaw(c: Client, op: Op)
    requires !op.DoConnect? && Dropped(op) == None
    ensures var added := Do(c, op).rooms[|c.rooms|..];
      match op
      case DoCreate(name) => added == if name != "" && c.online then [ChatRoom(NextId(c.rooms), name, 0)] else []
      case DoSubscribe(Some(id)) =>
        added == if c.online && !Listed(c, id) then [ChatRoom(id, "Room #" + Digits(id), 0)] else []
      case _ => added == []
  {
    if op.DoSubscribe? && op.input.Some? {
      assert IndexOfId(c.rooms, op.input.value).Some? <==> Listed(c, op.input.value);
    }
  }

  /** The provisional id is one more than the largest in use, and 1 if there is none. */
  lemma NextIdLaw(rooms: seq<ChatRoom>)
    requires forall k :: 0 <= k < |rooms| ==> rooms[k].id + 1 < TWO64
    ensures forall k :: 0 <= k < |rooms| ==> rooms[k].id < NextId(rooms)
    ensures NextId(rooms) == 1 || exists k :: 0 <= k < |rooms| && rooms[k].id + 1 == NextId(rooms)
  {
    assert NextId(rooms) == MaxId(rooms) + 1;
  }

  /** `ys` is `xs` without the rooms with id `gone`: the others are all there, in order, and nothing else. */
  ghost predicate LeavesOut(ys: seq<ChatRoom>, xs: seq<ChatRoom>, gone: U64) {
    Subsequence(ys, xs) &&
    forall r: ChatRoom :: multiset(ys)[r] == if r.id == gone then 0 else multiset(xs)[r]
  }

  lemma {:induction false} RoomsWithoutLeavesOut(rooms: seq<ChatRoom>, gone: U64)
    ensures LeavesOut(RoomsWithout(rooms, gone), rooms, gone)
    decreases |rooms|
  {
    if rooms != [] {
      var before, last := rooms[..|rooms| - 1], rooms[|rooms| - 1];
      var kept := RoomsWithout(before, gone);
      RoomsWithoutLeavesOut(before, gone);
      assert rooms == before + [last];
      if last.id == gone {
        SubsequenceGrows(kept, before, last);
        assert RoomsWithout(rooms, gone) == kept;
      } else {
        assert (kept + [last])[..|kept|] == kept && (before + [last])[..|before|] == before;
      }
    }
  }

  /** Leaving a room removes the rooms with its id and keeps all others as they are, in order. */
  lemma LeaveLaw(c: Client, op: Op)
    requires Dropped(op).Some?
    ensures LeavesOut(Do(c, op).rooms, c.rooms, Dropped(op).value)
  {
    RoomsWithoutLeavesOut(c.rooms, Dropped(op).value);
  }

  // ---------------------------------------------------------------------------
  // Round trips
  // ---------------------------------------------------------------------------

  lemma NameIsNewlyFound(rooms: seq<ChatRoom>, room: ChatRoom)
    requires IndexOfName(rooms, room.name).None?
    ensures IndexOfName(rooms + [room], room.name) == Some(|rooms|)
  {
    assert (rooms + [room])[|rooms|] == room;
    assert forall k :: 0 <= k < |rooms| ==> (rooms + [room])[k].name != room.name;
  }

  lemma IdIsNewlyFound(rooms: seq<ChatRoom>, room: ChatRoom)
    requires IndexOfId(rooms, room.id).None?
    ensures IndexOfId(rooms + [room], room.id) == Some(|rooms|)
  {
    assert (rooms + [room])[|rooms|] == room;
    assert forall k :: 0 <= k < |rooms| ==> (rooms + [room])[k].id != room.id;
  }

  /** The first message for a room at the end of the list. */
  lemma LastRoomHears(c: Client, before: seq<ChatRoom>, room: ChatRoom, text: string)
    requires c.rooms == before + [room] && room.unread == 0 && c.active != Some(room.id)
    requires IndexOfName(before, room.name).None? && IndexOfId(before, room.id).None?
    ensures var c' := Do(c, OnEvent(Message(room.name, text)));
      c'.rooms == before + [room.(unread := 1)] && c'.messages == c.messages + [ChatMessage(room.id, text, Server)]
  {
    NameIsNewlyFound(before, room);
    IdIsNewlyFound(before, room);
    assert (before + [room])[|before| := room.(unread := 1)] == before + [room.(unread := 1)];
  }

  /** The messages of a client in which no room has id `id` do not change when a room is re-keyed to it. */
  lemma {:induction false} RekeyLast(ms: seq<ChatMessage>, was: U64, id: U64, m: ChatMessage)
    requires forall k :: 0 <= k < |ms| ==> ms[k].roomId != was
    ensures RekeyAll(ms + [m], was, id) == ms + [Rekey(m, was, id)]
  {
  }

  lemma CreatedRoomIsListed(c: Client, name: string, id: U64)
    requires c.online && name != "" && IndexOfName(c.rooms, name).None? && Integral(c) && MaxId(c.rooms) + 1 < TWO64
    ensures var c' := Do(Do(c, DoCreate(name)), OnEvent(RoomConfirmed(id, name, true)));
      c'.rooms == c.rooms + [ChatRoom(id, name, 0)] && c'.active == c.active &&
      c'.messages == c.messages + [ChatMessage(id, CreatedText(name), System)]
  {
    var next := NextId(c.rooms);
    NextIdIsNew(c);
    NameIsNewlyFound(c.rooms, ChatRoom(next, name, 0));
    RekeyLast(c.messages, next, id, ChatMessage(next, CreatedText(name), System));
    assert Do(c, DoCreate(name)).rooms[|c.rooms|] == ChatRoom(next, name, 0);
  }

  /**
   Creating a room and hearing its confirmation under a fresh id: the room is listed last under the name that was
   typed and the server's id, shows its opening message alone, and receives what is relayed under that name.
   */
  lemma CreatedRoomIsConfirmed(c: Client, name: string, id: U64, text: string)
    requires Integral(c) && c.online && name != "" && IndexOfName(c.rooms, name).None?
    requires MaxId(c.rooms) + 1 < TWO64 && !Listed(c, id)
    ensures var opening := ChatMessage(id, "Created and joined room \"" + name + "\"", System);
      var c' := Do(Do(c, DoCreate(name)), OnEvent(RoomConfirmed(id, name, true)));
      var c'' := Do(c', OnEvent(Message(name, text)));
      && c'.rooms == c.rooms + [ChatRoom(id, name, 0)] && c'.active == c.active
      && c'.messages == c.messages + [opening] && Shown(c'.messages, id) == [opening]
      && c''.rooms == c.rooms + [ChatRoom(id, name, 1)]
      && Shown(c''.messages, id) == [opening, ChatMessage(id, text, Server)]
  {
    var c' := Do(Do(c, DoCreate(name)), OnEvent(RoomConfirmed(id, name, true)));
    CreatedRoomIsListed(c, name, id);
    NewRoomHears(c, c', ChatRoom(id, name, 0), ChatMessage(id, CreatedText(name), System), text);
  }

  /** A room just listed at the end, with its opening message. */
  lemma NewRoomHears(c: Client, c': Client, room: ChatRoom, opening: ChatMessage, text: string)
    requires Integral(c) && !Listed(c, room.id) && IndexOfName(c.rooms, room.name).None? && opening.roomId == room.id
    requires c'.rooms == c.rooms + [room] && c'.messages == c.messages + [opening] && c'.active == c.active
    requires room.unread == 0
    ensures Shown(c'.messages, room.id) == [opening]
    ensures var c'' := Do(c', OnEvent(Message(room.name, text)));
      c''.rooms == c.rooms + [room.(unread := 1)] &&
      Shown(c''.messages, room.id) == [opening, ChatMessage(room.id, text, Server)]
  {
    OpeningIsShown(c, c', opening, text);
    assert IndexOfId(c.rooms, room.id).None?;
    LastRoomHears(c', c.rooms, room, text);
  }

  lemma OpeningIsShown(c: Client, c': Client, opening: ChatMessage, text: string)
    requires Integral(c) && !Listed(c, opening.roomId) && c'.messages == c.messages + [opening]
    ensures Shown(c'.messages, opening.roomId) == [opening]
    ensures Shown(c'.messages + [ChatMessage(opening.roomId, text, Server)], opening.roomId) ==
            [opening, ChatMessage(opening.roomId, text, Server)]
  {
    UnlistedShowsNothing(c.messages, opening.roomId);
    ShownAppends(c.messages, opening, opening.roomId);
    ShownAppends(c'.messages, ChatMessage(opening.roomId, text, Server), opening.roomId);
  }

  /**
   Subscribing by id and hearing the confirmation: the room is listed last under the id that was typed and the
   server's name, shows its opening message alone, and receives what is relayed under that name.
   */
  lemma SubscribedRoomIsConfirmed(c: Client, name: string, id: U64, text: string)
    requires Integral(c) && c.online && !Listed(c, id) && IndexOfName(c.rooms, name).None?
    ensures var opening := ChatMessage(id, "Subscribed to room #" + Digits(id), System);
      var c' := Do(Do(c, DoSubscribe(Some(id))), OnEvent(RoomConfirmed(id, name, false)));
      var c'' := Do(c', OnEvent(Message(name, text)));
      && c'.rooms == c.rooms + [ChatRoom(id, name, 0)] && c'.active == c.active
      && c'.messages == c.messages + [opening] && Shown(c'.messages, id) == [opening]
      && c''.rooms == c.rooms + [ChatRoom(id, name, 1)]
      && Shown(c''.messages, id) == [opening, ChatMessage(id, text, Server)]
  {
    var room := ChatRoom(id, Placeholder(id), 0);
    var c1 := Do(c, DoSubscribe(Some(id)));
    assert IndexOfId(c.rooms, id).None?;
    IdIsNewlyFound(c.rooms, room);
    var c' := Do(c1, OnEvent(RoomConfirmed(id, name, false)));
    assert c'.rooms == c.rooms + [ChatRoom(id, name, 0)];
    NewRoomHears(c, c', ChatRoom(id, name, 0), ChatMessage(id, SubscribedText(id), System), text);
  }
}
