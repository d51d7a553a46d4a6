/** The client's shared signals and the closures that change them in place. */
module ClientApp {
  import opened Common
  import opened Network
  import opened ClientModel

  class App {
    var rooms: seq<ChatRoom>
    var messages: seq<ChatMessage>
    var activeRoomId: Option<U64>
    var online: bool

    function View(): Client
      reads this
    {
      Client(rooms, messages, activeRoomId, online)
    }

    constructor ()
      ensures View() == Start
    {
      rooms, messages, activeRoomId, online := [], [], None, false;
    }

    method FindByName(name: string) returns (r: Option<nat>)
      ensures r == IndexOfName(rooms, name)
    {
      var i := 0;
      while i < |rooms|
        invariant 0 <= i <= |rooms| && IndexOfName(rooms, name) == FirstFrom(rooms, RoomIsCalled(name), i)
      {
        if rooms[i].name == name {
          return Some(i);
        }
        i := i + 1;
      }
      return None;
    }

    method FindById(id: U64) returns (r: Option<nat>)
      ensures r == IndexOfId(rooms, id)
    {
      var i := 0;
      while i < |rooms|
        invariant 0 <= i <= |rooms| && IndexOfId(rooms, id) == FirstFrom(rooms, RoomHasId(id), i)
      {
        if rooms[i].id == id {
          return Some(i);
        }
        i := i + 1;
      }
      return None;
    }

    method LargestId() returns (m: U64)
      ensures m == MaxId(rooms)
    {
      m := 0;
      var i := 0;
      while i < |rooms|
        invariant 0 <= i <= |rooms| && m == MaxId(rooms[..i])
      {
        assert rooms[..i + 1][..i] == rooms[..i];
        if rooms[i].id > m {
          m := rooms[i].id;
        }
        i := i + 1;
      }
      assert rooms[..i] == rooms;
    }

    /** The `iter_mut` loop of the poller. */
    method RekeyMessages(was: U64, id: U64)
      modifies this`messages
      ensures messages == RekeyAll(old(messages), was, id)
    {
      var i := 0;
      while i < |messages|
        invariant 0 <= i <= |messages| == |old(messages)|
        invariant forall k :: 0 <= k < i ==> messages[k] == Rekey(old(messages)[k], was, id)
        invariant forall k :: i <= k < |messages| ==> messages[k] == old(messages)[k]
      {
        if messages[i].roomId == was {
          messages := messages[i := messages[i].(roomId := id)];
        }
        i := i + 1;
      }
    }

    /** `rooms.retain` and `messages.retain`. */
    method Retain(id: U64)
      modifies this`rooms, this`messages
      ensures rooms == RoomsWithout(old(rooms), id) && messages == MessagesWithout(old(messages), id)
    {
      var kept: seq<ChatRoom> := [];
      var i := 0;
      while i < |rooms|
        invariant 0 <= i <= |rooms| && kept == RoomsWithout(rooms[..i], id)
      {
        assert rooms[..i + 1][..i] == rooms[..i];
        if rooms[i].id != id {
          kept := kept + [rooms[i]];
        }
        i := i + 1;
      }
      assert rooms[..i] == rooms;
      rooms := kept;
      var keptMessages: seq<ChatMessage> := [];
      i := 0;
      while i < |messages|
        invariant 0 <= i <= |messages| && keptMessages == MessagesWithout(messages[..i], id)
      {
        assert messages[..i + 1][..i] == messages[..i];
        if messages[i].roomId != id {
          keptMessages := keptMessages + [messages[i]];
        }
        i := i + 1;
      }
      assert messages[..i] == messages;
      messages := keptMessages;
    }

    method OnRoomConfirmed(id: U64, name: string, isCreate: bool)
      modifies this
      ensures View() == HandleEvent(old(View()), RoomConfirmed(id, name, isCreate))
    {
      if isCreate {
        var found := FindByName(name);
        if found.Some? {
          var was := rooms[found.value].id;
          if was != id {
            rooms := rooms[found.value := rooms[found.value].(id := id)];
            RekeyMessages(was, id);
            if activeRoomId == Some(was) {
              activeRoomId := Some(id);
            }
          }
        }
      } else {
        var found := FindById(id);
        if found.Some? {
          rooms := rooms[found.value := rooms[found.value].(name := name)];
        }
      }
    }

    method OnMessage(group: string, text: string)
      modifies this
      ensures View() == HandleEvent(old(View()), Message(group, text))
    {
      var found := FindByName(group);
      if found.Some? {
        var id := rooms[found.value].id;
        messages := messages + [ChatMessage(id, text, Server)];
        if activeRoomId != Some(id) {
          var i := FindById(id);
          if i.Some? {
            rooms := rooms[i.value := rooms[i.value].(unread := (rooms[i.value].unread + 1) % TWO32)];
          }
        }
      }
    }

    /** One event of the poller. */
    method OnServerEvent(e: FromServer)
      modifies this
      ensures View() == HandleEvent(old(View()), e)
    {
      match e
      case RoomConfirmed(id, name, isCreate) => OnRoomConfirmed(id, name, isCreate);
      case Message(group, text) => OnMessage(group, text);
      case _ =>
    }

    method DoCreate(name: string)
      modifies this
      ensures View() == Create(old(View()), name)
      ensures rooms ==
        old(rooms) + (if name != "" && old(online) then [ChatRoom(NextId(old(rooms)), name, 0)] else [])
    {
      if name == "" {
        return;
      }
      if online {
        var largest := LargestId();
        var nextId := (largest + 1) % TWO64;
        rooms := rooms + [ChatRoom(nextId, name, 0)];
        messages := messages + [ChatMessage(nextId, CreatedText(name), System)];
      }
    }

    method DoSubscribe(input: Option<U64>)
      modifies this
      ensures View() == SubscribeTo(old(View()), input)
    {
      if input.None? {
        return;
      }
      var id := input.value;
      var known := FindById(id);
      if known.Some? {
        return;
      }
      if online {
        rooms := rooms + [ChatRoom(id, Placeholder(id), 0)];
        messages := messages + [ChatMessage(id, SubscribedText(id), System)];
      }
    }

    method SelectRoom(id: U64)
      modifies this
      ensures View() == Select(old(View()), id) && activeRoomId == Some(id)
    {
      activeRoomId := Some(id);
      var i := FindById(id);
      if i.Some? {
        rooms := rooms[i.value := rooms[i.value].(unread := 0)];
      }
    }

    method DoSend(id: U64, text: string)
      modifies this
      ensures View() == Send(old(View()), id, text)
    {
      if text == "" {
        return;
      }
      messages := messages + [ChatMessage(id, text, Me)];
    }

    method UnsubscribeItem(id: U64)
      modifies this
      ensures View() == Leave(old(View()), id)
    {
      Retain(id);
      if activeRoomId == Some(id) {
        activeRoomId := None;
      }
    }

    method UnsubscribeHeader(id: U64)
      modifies this
      ensures View() == LeaveOpen(old(View()), id)
    {
      Retain(id);
      activeRoomId := None;
    }

    method OnConnect()
      modifies this
      ensures View() == Connect(old(View()))
    {
      rooms, messages, activeRoomId, online := [], [], None, true;
    }
  }
}
