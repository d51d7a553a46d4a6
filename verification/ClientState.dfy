/** What every run of the client keeps: referential integrity, the views across re-keying, unread counts. */
module ClientState {
  import opened Common
  import opened Network
  import opened ClientModel

  // ---------------------------------------------------------------------------
  // Referential integrity
  // ---------------------------------------------------------------------------

  /** Every message belongs to a listed room, and so does the selection. */
  ghost predicate Integral(c: Client) {
    && (forall k :: 0 <= k < |c.messages| ==> Listed(c, c.messages[k].roomId))
    && (c.active.Some? ==> Listed(c, c.active.value))
  }

  /** The room a click or a keystroke names is on the screen, so it is listed. */
  predicate OnScreen(c: Client, op: Op) {
    match op
    case DoSelect(id) => Listed(c, id)
    case DoSend(id, text) => text == "" || Listed(c, id)
    case _ => true
  }

  lemma {:induction false} RoomsWithoutAre(rooms: seq<ChatRoom>, gone: U64)
    ensures forall r :: r in RoomsWithout(rooms, gone) <==> r in rooms && r.id != gone
    decreases |rooms|
  {
    if rooms != [] {
      var before := rooms[..|rooms| - 1];
      RoomsWithoutAre(before, gone);
      assert rooms == before + [rooms[|rooms| - 1]];
    }
  }

  lemma {:induction false} MessagesWithoutAre(ms: seq<ChatMessage>, gone: U64)
    ensures forall m :: m in MessagesWithout(ms, gone) <==> m in ms && m.roomId != gone
    decreases |ms|
  {
    if ms != [] {
      var before := ms[..|ms| - 1];
      MessagesWithoutAre(before, gone);
      assert ms == before + [ms[|ms| - 1]];
    }
  }

  lemma OthersStayListed(c: Client, gone: U64, id: U64)
    requires Listed(c, id) && id != gone
    ensures Listed(Drop(c, gone), id)
  {
    var k :| 0 <= k < |c.rooms| && c.rooms[k].id == id;
    RoomsWithoutAre(c.rooms, gone);
    assert c.rooms[k] in Drop(c, gone).rooms;
  }

  lemma DropKeepsIntegrity(c: Client, id: U64, active: Option<U64>)
    requires Integral(c) && (active.None? || (active == c.active && active != Some(id)))
    ensures Integral(Drop(c, id).(active := active))
  {
    var c' := Drop(c, id).(active := active);
    forall k | 0 <= k < |c'.messages| ensures Listed(c', c'.messages[k].roomId) {
      var m := c'.messages[k];
      MessagesWithoutAre(c.messages, id);
      assert m in c.messages;
      var j :| 0 <= j < |c.messages| && c.messages[j] == m;
      OthersStayListed(c, id, m.roomId);
    }
    if active.Some? {
      OthersStayListed(c, id, active.value);
    }
  }

  /** Ids of rooms can be listed again after a room changed in another way. */
  lemma UpdateKeepsListed(c: Client, c': Client, i: nat, id: U64)
    requires i < |c.rooms| && |c'.rooms| == |c.rooms| && c'.rooms[i].id == c.rooms[i].id
    requires forall k :: 0 <= k < |c.rooms| && k != i ==> c'.rooms[k] == c.rooms[k]
    requires Listed(c, id)
    ensures Listed(c', id)
  {
    var k :| 0 <= k < |c.rooms| && c.rooms[k].id == id;
    assert c'.rooms[k].id == id;
  }

  /** Re-keying moves the messages, the selection and the room together. */
  lemma ConfirmCreateKeepsIntegrity(c: Client, id: U64, name: string)
    requires Integral(c)
    ensures Integral(ConfirmCreate(c, id, name))
  {
    var c' := ConfirmCreate(c, id, name);
    if c' != c {
      var i := IndexOfName(c.rooms, name).value;
      var was := c.rooms[i].id;
      assert c'.rooms[i].id == id;
      assert forall j: U64 :: j != was && Listed(c, j) ==> Listed(c', j) by {
        forall j: U64 | j != was && Listed(c, j) ensures Listed(c', j) {
          var k :| 0 <= k < |c.rooms| && c.rooms[k].id == j;
          assert c'.rooms[k].id == j;
        }
      }
    }
  }

  lemma EnterKeepsIntegrity(c: Client, id: U64, name: string, text: string)
    requires Integral(c)
    ensures Integral(Enter(c, id, name, text))
  {
    var c' := Enter(c, id, name, text);
    assert c'.rooms[|c.rooms|].id == id;
    forall j: U64 | Listed(c, j) ensures Listed(c', j) {
      var k :| 0 <= k < |c.rooms| && c.rooms[k].id == j;
      assert c'.rooms[k].id == j;
    }
  }

  lemma HandleEventKeepsIntegrity(c: Client, e: FromServer)
    requires Integral(c)
    ensures Integral(HandleEvent(c, e))
  {
    var c' := HandleEvent(c, e);
    match e
    case RoomConfirmed(id, name, isCreate) =>
      if isCreate {
        ConfirmCreateKeepsIntegrity(c, id, name);
      } else if IndexOfId(c.rooms, id).Some? {
        forall j: U64 | Listed(c, j) ensures Listed(c', j) {
          UpdateKeepsListed(c, c', IndexOfId(c.rooms, id).value, j);
        }
      }
    case Message(group, text) =>
      if IndexOfName(c.rooms, group).Some? {
        var id := c.rooms[IndexOfName(c.rooms, group).value].id;
        assert Listed(c, id);
        forall j: U64 | Listed(c, j) ensures Listed(c', j) {
          if c'.rooms != c.rooms {
            UpdateKeepsListed(c, c', IndexOfId(c.rooms, id).value, j);
          }
        }
      }
    case _ =>
  }

  lemma SelectKeepsIntegrity(c: Client, id: U64)
    requires Integral(c) && Listed(c, id)
    ensures Integral(Select(c, id))
  {
    var c' := Select(c, id);
    if IndexOfId(c.rooms, id).Some? {
      forall j: U64 | Listed(c, j) ensures Listed(c', j) {
        UpdateKeepsListed(c, c', IndexOfId(c.rooms, id).value, j);
      }
    }
  }

  /** An operation keeps integrity if and only if the room it names is on the screen. */
  lemma IntegrityIffOnScreen(c: Client, op: Op)
    requires Integral(c)
    ensures Integral(Do(c, op)) <==> OnScreen(c, op)
  {
    match op
    case OnEvent(e) => HandleEventKeepsIntegrity(c, e);
    case DoCreate(name) =>
      if Do(c, op) != c {
        EnterKeepsIntegrity(c, NextId(c.rooms), name, CreatedText(name));
      }
    case DoSubscribe(input) =>
      if Do(c, op) != c {
        EnterKeepsIntegrity(c, input.value, Placeholder(input.value), SubscribedText(input.value));
      }
    case DoSelect(id) =>
      if Listed(c, id) {
        SelectKeepsIntegrity(c, id);
      } else {
        assert IndexOfId(c.rooms, id).None?;
      }
    case DoSend(id, text) =>
      var c' := Send(c, id, text);
      if text != "" {
        assert c'.messages[|c.messages|].roomId == id;
        assert forall j: U64 :: Listed(c, j) <==> Listed(c', j);
      }
    case DoLeave(id) => DropKeepsIntegrity(c, id, Leave(c, id).active);
    case DoLeaveOpen(id) => DropKeepsIntegrity(c, id, None);
    case DoConnect =>
  }

  /** Every operation of a run names a room that is on the screen. */
  predicate Usable(ops: seq<Op>)
    decreases |ops|
  {
    ops == [] || (Usable(ops[..|ops| - 1]) && OnScreen(DoAll(ops[..|ops| - 1]), ops[|ops| - 1]))
  }

  /** Integrity in every run, whatever names and ids collide. */
  lemma {:induction false} AlwaysIntegral(ops: seq<Op>)
    requires Usable(ops)
    ensures Integral(DoAll(ops))
    decreases |ops|
  {
    if ops != [] {
      AlwaysIntegral(ops[..|ops| - 1]);
      IntegrityIffOnScreen(DoAll(ops[..|ops| - 1]), ops[|ops| - 1]);
    }
  }
}
