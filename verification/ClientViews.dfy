/** Re-keying preserves what each room shows, and unread counts are exact, while room ids stay unique. */
module ClientViews {
  import opened Common
  import opened Network
  import opened ClientModel
  import opened ClientState

  // ---------------------------------------------------------------------------
  // Unique ids
  // ---------------------------------------------------------------------------

  predicate IdsUnique(rooms: seq<ChatRoom>) {
    forall j, k :: 0 <= j < k < |rooms| ==> rooms[j].id != rooms[k].id
  }

  /** The id the server confirms for a created room is not that of another local room. */
  predicate FreshId(c: Client, id: U64, name: string) {
    match IndexOfName(c.rooms, name)
    case None => true
    case Some(i) => forall k :: 0 <= k < |c.rooms| && k != i ==> c.rooms[k].id != id
  }

  /** A confirmation keeps the ids unique if and only if the id is fresh. */
  lemma ConfirmKeepsUniqueIffFresh(c: Client, id: U64, name: string)
    requires IdsUnique(c.rooms)
    ensures IdsUnique(ConfirmCreate(c, id, name).rooms) <==> FreshId(c, id, name)
  {
    var c' := ConfirmCreate(c, id, name);
    match IndexOfName(c.rooms, name)
    case None =>
    case Some(i) =>
      assert c'.rooms[i].id == id;
      assert forall k :: 0 <= k < |c.rooms| && k != i ==> c'.rooms[k].id == c.rooms[k].id;
  }

  /** The counter that numbers new rooms has not run over, and confirmed ids are fresh. */
  predicate NoClash(c: Client, op: Op) {
    match op
    case OnEvent(RoomConfirmed(id, name, true)) => FreshId(c, id, name)
    case DoCreate(_) => MaxId(c.rooms) + 1 < TWO64
    case _ => true
  }

  /** The number of a new room is not in use while the counter has not run over. */
  lemma NextIdIsNew(c: Client)
    requires MaxId(c.rooms) + 1 < TWO64
    ensures !Listed(c, NextId(c.rooms))
  {
    assert NextId(c.rooms) == MaxId(c.rooms) + 1;
  }

  lemma {:induction false} RoomsWithoutStaysUnique(rooms: seq<ChatRoom>, gone: U64)
    requires IdsUnique(rooms)
    ensures IdsUnique(RoomsWithout(rooms, gone))
    decreases |rooms|
  {
    if rooms != [] {
      var before, last := rooms[..|rooms| - 1], rooms[|rooms| - 1];
      RoomsWithoutStaysUnique(before, gone);
      RoomsWithoutAre(before, gone);
      var kept := RoomsWithout(before, gone);
      forall k | 0 <= k < |kept| ensures kept[k].id != last.id {
        assert kept[k] in before;
      }
    }
  }

  lemma StepKeepsUnique(c: Client, op: Op)
    requires IdsUnique(c.rooms) && NoClash(c, op)
    ensures IdsUnique(Do(c, op).rooms)
  {
    match op
    case OnEvent(RoomConfirmed(id, name, true)) => ConfirmKeepsUniqueIffFresh(c, id, name);
    case DoLeave(id) => RoomsWithoutStaysUnique(c.rooms, id);
    case DoLeaveOpen(id) => RoomsWithoutStaysUnique(c.rooms, id);
    case _ =>
  }

  /** The runs in which ids stay unique. */
  predicate Tidy(ops: seq<Op>)
    decreases |ops|
  {
    ops == [] ||
    var c := DoAll(ops[..|ops| - 1]);
    Tidy(ops[..|ops| - 1]) && OnScreen(c, ops[|ops| - 1]) && NoClash(c, ops[|ops| - 1])
  }

  lemma {:induction false} TidyRuns(ops: seq<Op>)
    requires Tidy(ops)
    ensures Usable(ops) && Integral(DoAll(ops)) && IdsUnique(DoAll(ops).rooms)
    decreases |ops|
  {
    if ops != [] {
      TidyRuns(ops[..|ops| - 1]);
      StepKeepsUnique(DoAll(ops[..|ops| - 1]), ops[|ops| - 1]);
    }
    AlwaysIntegral(ops);
  }

  // ---------------------------------------------------------------------------
  // Re-keying and views
  // ---------------------------------------------------------------------------

  /** What a view shows of a message: all but the id it is filed under. */
  function Bodies(ms: seq<ChatMessage>): (r: seq<(string, Sender)>)
    ensures |r| == |ms| && forall k :: 0 <= k < |ms| ==> r[k] == (ms[k].text, ms[k].sender)
  {
    seq(|ms|, k requires 0 <= k < |ms| => (ms[k].text, ms[k].sender))
  }

  lemma RekeyAllSplits(ms: seq<ChatMessage>, was: U64, id: U64)
    requires ms != []
    ensures RekeyAll(ms, was, id)[..|ms| - 1] == RekeyAll(ms[..|ms| - 1], was, id)
  {
  }

  /** The messages filed under either of two ids, in the order in which they are stored. */
  function ShownEither(ms: seq<ChatMessage>, a: U64, b: U64): seq<ChatMessage> {
    if ms == [] then []
    else
      var last := ms[|ms| - 1];
      ShownEither(ms[..|ms| - 1], a, b) + (if last.roomId == a || last.roomId == b then [last] else [])
  }

  /**
   The view under the new id merges the two old views: it shows the messages of both in the order in which they
   were stored, each as often as it was shown before, and nothing else.
   */
  lemma {:induction false} RekeyMerges(ms: seq<ChatMessage>, was: U64, id: U64)
    requires was != id
    ensures Bodies(Shown(RekeyAll(ms, was, id), id)) == Bodies(ShownEither(ms, was, id))
    ensures multiset(ShownEither(ms, was, id)) == multiset(Shown(ms, was)) + multiset(Shown(ms, id))
    decreases |ms|
  {
    if ms != [] {
      var before, last := ms[..|ms| - 1], ms[|ms| - 1];
      RekeyAllSplits(ms, was, id);
      RekeyMerges(before, was, id);
      if last.roomId == was || last.roomId == id {
        BodiesAppend(Shown(RekeyAll(before, was, id), id), Rekey(last, was, id));
        BodiesAppend(ShownEither(before, was, id), last);
      } else {
        assert ShownEither(ms, was, id) == ShownEither(before, was, id);
        assert Shown(RekeyAll(ms, was, id), id) == Shown(RekeyAll(before, was, id), id);
      }
    }
  }

  /** Each of the two views keeps its own order in the merged one. */
  lemma {:induction false} MergeKeepsOrder(ms: seq<ChatMessage>, was: U64, id: U64)
    requires was != id
    ensures Shown(ShownEither(ms, was, id), was) == Shown(ms, was)
    ensures Shown(ShownEither(ms, was, id), id) == Shown(ms, id)
    decreases |ms|
  {
    if ms != [] {
      var before, last := ms[..|ms| - 1], ms[|ms| - 1];
      MergeKeepsOrder(before, was, id);
      if last.roomId == was || last.roomId == id {
        ShownAppends(ShownEither(before, was, id), last, was);
        ShownAppends(ShownEither(before, was, id), last, id);
      } else {
        assert ShownEither(ms, was, id) == ShownEither(before, was, id);
      }
    }
  }

  /** If nothing was filed under the new id, the view moves there as it is. */
  lemma {:induction false} RekeyMoves(ms: seq<ChatMessage>, was: U64, id: U64)
    requires was != id && Shown(ms, id) == []
    ensures Bodies(Shown(RekeyAll(ms, was, id), id)) == Bodies(Shown(ms, was))
    decreases |ms|
  {
    if ms != [] {
      var before, last := ms[..|ms| - 1], ms[|ms| - 1];
      RekeyAllSplits(ms, was, id);
      RekeyMoves(before, was, id);
      var xs, ys := Shown(RekeyAll(before, was, id), id), Shown(before, was);
      if last.roomId == was {
        BodiesAppend(xs, Rekey(last, was, id));
        BodiesAppend(ys, last);
      } else {
        assert Shown(RekeyAll(ms, was, id), id) == xs && Shown(ms, was) == ys;
      }
    }
  }

  lemma BodiesAppend(ms: seq<ChatMessage>, m: ChatMessage)
    ensures Bodies(ms + [m]) == Bodies(ms) + [(m.text, m.sender)]
  {
  }

  lemma {:induction false} RekeySpares(ms: seq<ChatMessage>, was: U64, id: U64, other: U64)
    requires other != was && other != id
    ensures Shown(RekeyAll(ms, was, id), other) == Shown(ms, other)
    decreases |ms|
  {
    if ms != [] {
      RekeyAllSplits(ms, was, id);
      RekeySpares(ms[..|ms| - 1], was, id, other);
    }
  }

  /** The re-keyed room shows what it showed before if and only if nothing was filed under the new id. */
  lemma ViewKeptIffUnused(c: Client, id: U64, name: string)
    requires IndexOfName(c.rooms, name).Some? && c.rooms[IndexOfName(c.rooms, name).value].id != id
    ensures var was := c.rooms[IndexOfName(c.rooms, name).value].id;
      Bodies(Shown(ConfirmCreate(c, id, name).messages, id)) == Bodies(Shown(c.messages, was)) <==>
      Shown(c.messages, id) == []
  {
    var was := c.rooms[IndexOfName(c.rooms, name).value].id;
    RekeyMerges(c.messages, was, id);
    assert |ShownEither(c.messages, was, id)| ==
           |multiset(Shown(c.messages, was)) + multiset(Shown(c.messages, id))|;
    if Shown(c.messages, id) == [] {
      RekeyMoves(c.messages, was, id);
    }
  }

  lemma {:induction false} UnlistedShowsNothing(ms: seq<ChatMessage>, id: U64)
    requires forall k :: 0 <= k < |ms| ==> ms[k].roomId != id
    ensures Shown(ms, id) == []
    decreases |ms|
  {
    if ms != [] {
      UnlistedShowsNothing(ms[..|ms| - 1], id);
    }
  }

  /**
   In a tidy run a confirmation drops, changes and reorders no message, and keeps every view: the room's own under
   its new id, and all others.
   */
  lemma RekeyingPreservesViews(ops: seq<Op>, id: U64, name: string)
    requires Tidy(ops) && FreshId(DoAll(ops), id, name) && IndexOfName(DoAll(ops).rooms, name).Some?
    ensures var c := DoAll(ops);
      var c' := ConfirmCreate(c, id, name);
      var was := c.rooms[IndexOfName(c.rooms, name).value].id;
      && Bodies(c'.messages) == Bodies(c.messages)
      && Bodies(Shown(c'.messages, id)) == Bodies(Shown(c.messages, was))
      && (forall other: U64 :: other != was && other != id ==> Shown(c'.messages, other) == Shown(c.messages, other))
      && (c.active == Some(was) ==> c'.active == Some(id))
      && IdsUnique(c'.rooms)
  {
    var c := DoAll(ops);
    var i := IndexOfName(c.rooms, name).value;
    var was := c.rooms[i].id;
    TidyRuns(ops);
    ConfirmKeepsUniqueIffFresh(c, id, name);
    if was != id {
      assert !Listed(c, id);
      UnlistedShowsNothing(c.messages, id);
      RekeyMoves(c.messages, was, id);
      forall other: U64 | other != was && other != id
        ensures Shown(ConfirmCreate(c, id, name).messages, other) == Shown(c.messages, other)
      {
        RekeySpares(c.messages, was, id, other);
      }
    }
  }

  lemma ShownAppends(ms: seq<ChatMessage>, m: ChatMessage, id: U64)
    ensures Shown(ms + [m], id) == Shown(ms, id) + (if m.roomId == id then [m] else [])
  {
    assert (ms + [m])[..|ms|] == ms;
  }

  lemma {:induction false} ShownWithout(ms: seq<ChatMessage>, gone: U64, id: U64)
    ensures Shown(MessagesWithout(ms, gone), id) == if id == gone then [] else Shown(ms, id)
    decreases |ms|
  {
    if ms != [] {
      var before, last := ms[..|ms| - 1], ms[|ms| - 1];
      ShownWithout(before, gone, id);
      if last.roomId != gone {
        ShownAppends(MessagesWithout(before, gone), last, id);
      } else {
        assert MessagesWithout(ms, gone) == MessagesWithout(before, gone);
      }
    }
  }

  /** The message an operation adds, if it adds one. */
  function Added(c: Client, op: Op): Option<ChatMessage> {
    match op
    case OnEvent(Message(group, text)) =>
      (match IndexOfName(c.rooms, group)
       case None => None
       case Some(i) => Some(ChatMessage(c.rooms[i].id, text, Server)))
    case DoCreate(name) =>
      if name == "" || !c.online then None else Some(ChatMessage(NextId(c.rooms), CreatedText(name), System))
    case DoSubscribe(Some(id)) =>
      if Listed(c, id) || !c.online then None else Some(ChatMessage(id, SubscribedText(id), System))
    case DoSend(id, text) => if text == "" then None else Some(ChatMessage(id, text, Me))
    case _ => None
  }

  /** The room an operation drops, if it drops one. */
  function Dropped(op: Op): Option<U64> {
    match op
    case DoLeave(id) => Some(id)
    case DoLeaveOpen(id) => Some(id)
    case _ => None
  }

  /**
   Apart from re-keying and connecting, an operation touches at most one view: it adds one message at its
   end, or empties it.
   */
  lemma OneViewChanges(c: Client, op: Op, id: U64)
    requires !op.DoConnect? && !(op.OnEvent? && op.e.RoomConfirmed? && op.e.isCreate)
    ensures Shown(Do(c, op).messages, id) ==
      if Dropped(op) == Some(id) then []
      else if Added(c, op).Some? && Added(c, op).value.roomId == id then Shown(c.messages, id) + [Added(c, op).value]
      else Shown(c.messages, id)
  {
    match op
    case OnEvent(e) =>
      match e {
        case Message(group, text) =>
          if IndexOfName(c.rooms, group).Some? {
            ShownAppends(c.messages, ChatMessage(c.rooms[IndexOfName(c.rooms, group).value].id, text, Server), id);
          }
        case _ =>
      }
    case DoCreate(name) => ShownAppends(c.messages, ChatMessage(NextId(c.rooms), CreatedText(name), System), id);
    case DoSubscribe(input) =>
      if input.Some? {
        assert IndexOfId(c.rooms, input.value).Some? <==> Listed(c, input.value);
        ShownAppends(c.messages, ChatMessage(input.value, SubscribedText(input.value), System), id);
      }
    case DoSend(room, text) => ShownAppends(c.messages, ChatMessage(room, text, Me), id);
    case DoLeave(gone) => ShownWithout(c.messages, gone, id);
    case DoLeaveOpen(gone) => ShownWithout(c.messages, gone, id);
    case DoSelect(_) =>
  }

  /** In a tidy run a room that is entered is new, and shows its opening message and nothing else. */
  lemma NewRoomShowsItsOpening(ops: seq<Op>, op: Op)
    requires Tidy(ops + [op]) && (op.DoCreate? || op.DoSubscribe?) && Added(DoAll(ops), op).Some?
    ensures var c, c', m := DoAll(ops), DoAll(ops + [op]), Added(DoAll(ops), op).value;
      !Listed(c, m.roomId) && Listed(c', m.roomId) && Shown(c'.messages, m.roomId) == [m]
  {
    assert (ops + [op])[..|ops|] == ops;
    var c, m := DoAll(ops), Added(DoAll(ops), op).value;
    TidyRuns(ops);
    if op.DoCreate? {
      NextIdIsNew(c);
    }
    UnlistedShowsNothing(c.messages, m.roomId);
    OneViewChanges(c, op, m.roomId);
    assert Do(c, op).rooms[|c.rooms|].id == m.roomId;
  }

  // ---------------------------------------------------------------------------
  // Unread counts
  // ---------------------------------------------------------------------------

  /** The messages from the server that are stored for a room, in order. */
  function ServerTexts(ms: seq<ChatMessage>, id: U64): seq<string> {
    if ms == [] then []
    else
      var last := ms[|ms| - 1];
      ServerTexts(ms[..|ms| - 1], id) + (if last.roomId == id && last.sender == Server then [last.text] else [])
  }

  function Stored(ms: seq<ChatMessage>, id: U64): nat {
    |ServerTexts(ms, id)|
  }

  /** The marks of the rooms that stay when the rooms with id `gone` go. */
  function MarksWithout<T>(rooms: seq<ChatRoom>, marks: seq<T>, gone: U64): seq<T>
    requires |marks| == |rooms|
  {
    if rooms == [] then []
    else
      var n := |rooms| - 1;
      MarksWithout(rooms[..n], marks[..n], gone) + (if rooms[n].id != gone then [marks[n]] else [])
  }

  /** A list of marks follows the list of rooms; a new room is marked with `start`. */
  function Follow<T>(c: Client, op: Op, marks: seq<T>, start: T): seq<T>
    requires |marks| == |c.rooms|
  {
    match op
    case DoLeave(id) => MarksWithout(c.rooms, marks, id)
    case DoLeaveOpen(id) => MarksWithout(c.rooms, marks, id)
    case DoConnect => []
    case _ => if |Do(c, op).rooms| > |c.rooms| then marks + [start] else marks
  }

  /** An active room is marked with all it has stored. */
  function Mark(c: Client, marks: seq<nat>): (r: seq<nat>)
    requires |marks| == |c.rooms|
    ensures |r| == |marks|
    ensures forall k :: 0 <= k < |marks| ==>
      r[k] == if c.active == Some(c.rooms[k].id) then Stored(c.messages, c.rooms[k].id) else marks[k]
  {
    seq(|marks|, k requires 0 <= k < |marks| =>
      if c.active == Some(c.rooms[k].id) then Stored(c.messages, c.rooms[k].id) else marks[k])
  }

  /** Entry `k` of the lists without `gone` is entry `j` of the lists with it. */
  predicate CameFrom<T(==)>(rooms: seq<ChatRoom>, marks: seq<T>, gone: U64, k: nat, j: nat)
    requires |marks| == |rooms|
  {
    j < |rooms| && rooms[j].id != gone &&
    k < |RoomsWithout(rooms, gone)| && k < |MarksWithout(rooms, marks, gone)| &&
    RoomsWithout(rooms, gone)[k] == rooms[j] && MarksWithout(rooms, marks, gone)[k] == marks[j]
  }

  ghost predicate HasOrigin<T>(rooms: seq<ChatRoom>, marks: seq<T>, gone: U64, k: nat)
    requires |marks| == |rooms|
  {
    exists j: nat :: CameFrom(rooms, marks, gone, k, j)
  }

  lemma {:induction false} MarksWithoutFollow<T>(rooms: seq<ChatRoom>, marks: seq<T>, gone: U64)
    requires |marks| == |rooms|
    ensures |MarksWithout(rooms, marks, gone)| == |RoomsWithout(rooms, gone)|
    ensures forall k: nat :: k < |RoomsWithout(rooms, gone)| ==> HasOrigin(rooms, marks, gone, k)
    decreases |rooms|
  {
    if rooms != [] {
      var n := |rooms| - 1;
      MarksWithoutFollow(rooms[..n], marks[..n], gone);
      forall k: nat | k < |RoomsWithout(rooms, gone)| ensures HasOrigin(rooms, marks, gone, k) {
        if k < |RoomsWithout(rooms[..n], gone)| {
          assert HasOrigin(rooms[..n], marks[..n], gone, k);
          var j: nat :| CameFrom(rooms[..n], marks[..n], gone, k, j);
          assert CameFrom(rooms, marks, gone, k, j);
        } else {
          assert CameFrom(rooms, marks, gone, k, n);
        }
      }
    }
  }

  lemma FollowLength<T>(c: Client, op: Op, marks: seq<T>, start: T)
    requires |marks| == |c.rooms|
    ensures |Follow(c, op, marks, start)| == |Do(c, op).rooms|
  {
    match op
    case DoLeave(id) => MarksWithoutFollow(c.rooms, marks, id);
    case DoLeaveOpen(id) => MarksWithoutFollow(c.rooms, marks, id);
    case _ =>
  }

  /** For each room, how many server messages it had stored when it was last active; 0 if it never was. */
  function LastActive(ops: seq<Op>): (marks: seq<nat>)
    ensures |marks| == |DoAll(ops).rooms|
  {
    if ops == [] then []
    else
      var before, op := ops[..|ops| - 1], ops[|ops| - 1];
      FollowLength(DoAll(before), op, LastActive(before), 0);
      Mark(DoAll(ops), Follow(DoAll(before), op, LastActive(before), 0))
  }

  /** A room's unread count is the number of server messages stored since it was last active, modulo 2^32. */
  predicate CountedRoom(c: Client, room: ChatRoom, mark: nat) {
    var stored := Stored(c.messages, room.id);
    mark <= stored && room.unread == (stored - mark) % TWO32 && (c.active == Some(room.id) ==> mark == stored)
  }

  predicate Counted(c: Client, marks: seq<nat>)
    requires |marks| == |c.rooms|
  {
    forall k :: 0 <= k < |c.rooms| ==> CountedRoom(c, c.rooms[k], marks[k])
  }

  lemma TextsAppend(ms: seq<ChatMessage>, m: ChatMessage, id: U64)
    ensures ServerTexts(ms + [m], id) ==
            ServerTexts(ms, id) + (if m.roomId == id && m.sender == Server then [m.text] else [])
  {
    assert (ms + [m])[..|ms|] == ms;
  }

  lemma {:induction false} TextsRekey(ms: seq<ChatMessage>, was: U64, id: U64, other: U64)
    requires was != id && forall k :: 0 <= k < |ms| ==> ms[k].roomId != id
    ensures ServerTexts(RekeyAll(ms, was, id), other) ==
      if other == id then ServerTexts(ms, was) else if other == was then [] else ServerTexts(ms, other)
    decreases |ms|
  {
    if ms != [] {
      RekeyAllSplits(ms, was, id);
      TextsRekey(ms[..|ms| - 1], was, id, other);
    }
  }

  lemma {:induction false} TextsWithout(ms: seq<ChatMessage>, gone: U64, other: U64)
    requires other != gone
    ensures ServerTexts(MessagesWithout(ms, gone), other) == ServerTexts(ms, other)
    decreases |ms|
  {
    if ms != [] {
      var before, last := ms[..|ms| - 1], ms[|ms| - 1];
      TextsWithout(before, gone, other);
      if last.roomId != gone {
        TextsAppend(MessagesWithout(before, gone), last, other);
      } else {
        assert MessagesWithout(ms, gone) == MessagesWithout(before, gone);
      }
    }
  }

  lemma {:induction false} NoTexts(ms: seq<ChatMessage>, id: U64)
    requires forall k :: 0 <= k < |ms| ==> ms[k].roomId != id
    ensures ServerTexts(ms, id) == []
    decreases |ms|
  {
    if ms != [] {
      NoTexts(ms[..|ms| - 1], id);
    }
  }

  /** A room with the same count and the same store stays counted. */
  lemma StaysCounted(c: Client, room: ChatRoom, mark: nat, c': Client, room': ChatRoom)
    requires CountedRoom(c, room, mark)
    requires Stored(c'.messages, room'.id) == Stored(c.messages, room.id) && room'.unread == room.unread
    requires c'.active == Some(room'.id) ==> c.active == Some(room.id)
    ensures CountedRoom(c', room', mark)
  {
  }

  lemma EnterCountsRoom(c: Client, room: ChatRoom, mark: nat, id: U64, name: string, text: string)
    requires CountedRoom(c, room, mark)
    ensures CountedRoom(Enter(c, id, name, text), room, mark)
  {
    TextsAppend(c.messages, ChatMessage(id, text, System), room.id);
    StaysCounted(c, room, mark, Enter(c, id, name, text), room);
  }

  lemma EnterCounts(c: Client, marks: seq<nat>, id: U64, name: string, text: string)
    requires |marks| == |c.rooms| && Counted(c, marks) && Integral(c) && !Listed(c, id)
    ensures Counted(Enter(c, id, name, text), marks + [0])
  {
    var c' := Enter(c, id, name, text);
    forall k | 0 <= k <= |c.rooms| ensures CountedRoom(c', c'.rooms[k], (marks + [0])[k]) {
      if k < |c.rooms| {
        assert CountedRoom(c, c.rooms[k], marks[k]);
        EnterCountsRoom(c, c.rooms[k], marks[k], id, name, text);
      } else {
        NoTexts(c.messages, id);
        TextsAppend(c.messages, ChatMessage(id, text, System), id);
      }
    }
  }

  lemma DropCountsRoom(c: Client, room: ChatRoom, mark: nat, id: U64, active: Option<U64>)
    requires CountedRoom(c, room, mark) && room.id != id && (active.None? || active == c.active)
    ensures CountedRoom(Drop(c, id).(active := active), room, mark)
  {
    TextsWithout(c.messages, id, room.id);
    StaysCounted(c, room, mark, Drop(c, id).(active := active), room);
  }

  lemma DropCounts(c: Client, marks: seq<nat>, id: U64, active: Option<U64>)
    requires |marks| == |c.rooms| && Counted(c, marks) && (active.None? || active == c.active)
    ensures |MarksWithout(c.rooms, marks, id)| == |Drop(c, id).rooms|
    ensures Counted(Drop(c, id).(active := active), MarksWithout(c.rooms, marks, id))
  {
    var c', marks' := Drop(c, id).(active := active), MarksWithout(c.rooms, marks, id);
    MarksWithoutFollow(c.rooms, marks, id);
    forall k | 0 <= k < |c'.rooms| ensures CountedRoom(c', c'.rooms[k], marks'[k]) {
      assert HasOrigin(c.rooms, marks, id, k);
      var j: nat :| CameFrom(c.rooms, marks, id, k, j);
      assert CountedRoom(c, c.rooms[j], marks[j]);
      DropCountsRoom(c, c.rooms[j], marks[j], id, active);
    }
  }

  /** Counting on modulo 2^32. */
  lemma CountOn(n: nat)
    ensures (n % TWO32 + 1) % TWO32 == (n + 1) % TWO32
  {
  }

  /** A message adds one to the count of its room, unless the room is active and is marked anew. */
  lemma DeliverCounts(c: Client, marks: seq<nat>, group: string, text: string)
    requires |marks| == |c.rooms| && Counted(c, marks) && IdsUnique(c.rooms)
    ensures var c' := Deliver(c, group, text);
      Counted(c', Mark(c', marks))
  {
    var c' := Deliver(c, group, text);
    if IndexOfName(c.rooms, group).Some? {
      var i := IndexOfName(c.rooms, group).value;
      var id := c.rooms[i].id;
      assert IndexOfId(c.rooms, id) == Some(i);
      forall k | 0 <= k < |c'.rooms| ensures CountedRoom(c', c'.rooms[k], Mark(c', marks)[k]) {
        assert CountedRoom(c, c.rooms[k], marks[k]);
        TextsAppend(c.messages, ChatMessage(id, text, Server), c.rooms[k].id);
        CountOn(Stored(c.messages, c.rooms[k].id) - marks[k]);
      }
    } else {
      forall k | 0 <= k < |c'.rooms| ensures CountedRoom(c', c'.rooms[k], Mark(c', marks)[k]) {
        assert CountedRoom(c, c.rooms[k], marks[k]);
      }
    }
  }

  lemma ConfirmCountsRoom(c: Client, mark: nat, id: U64, name: string, k: nat)
    requires k < |c.rooms| && CountedRoom(c, c.rooms[k], mark)
    requires IdsUnique(c.rooms) && Integral(c) && FreshId(c, id, name)
    ensures CountedRoom(ConfirmCreate(c, id, name), ConfirmCreate(c, id, name).rooms[k], mark)
  {
    var c' := ConfirmCreate(c, id, name);
    if c' != c {
      assert !Listed(c, id);
      TextsRekey(c.messages, c.rooms[IndexOfName(c.rooms, name).value].id, id, c'.rooms[k].id);
      assert ServerTexts(c'.messages, c'.rooms[k].id) == ServerTexts(c.messages, c.rooms[k].id);
    }
    StaysCounted(c, c.rooms[k], mark, c', c'.rooms[k]);
  }

  lemma ConfirmCounts(c: Client, marks: seq<nat>, id: U64, name: string)
    requires |marks| == |c.rooms| && Counted(c, marks) && IdsUnique(c.rooms) && Integral(c) && FreshId(c, id, name)
    ensures Counted(ConfirmCreate(c, id, name), marks)
  {
    forall k | 0 <= k < |c.rooms|
      ensures CountedRoom(ConfirmCreate(c, id, name), ConfirmCreate(c, id, name).rooms[k], marks[k])
    {
      ConfirmCountsRoom(c, marks[k], id, name, k);
    }
  }

  lemma SelectCounts(c: Client, marks: seq<nat>, id: U64)
    requires |marks| == |c.rooms| && Counted(c, marks) && IdsUnique(c.rooms) && Listed(c, id)
    ensures Counted(Select(c, id), Mark(Select(c, id), marks))
  {
    var c' := Select(c, id);
    forall k | 0 <= k < |c'.rooms| ensures CountedRoom(c', c'.rooms[k], Mark(c', marks)[k]) {
      assert CountedRoom(c, c.rooms[k], marks[k]);
    }
  }

  /** Marking the active room again changes nothing where the counts are right. */
  lemma MarkIsIdle(c: Client, marks: seq<nat>)
    requires |marks| == |c.rooms| && Counted(c, marks)
    ensures Mark(c, marks) == marks
  {
    forall k | 0 <= k < |marks| ensures Mark(c, marks)[k] == marks[k] {
      assert CountedRoom(c, c.rooms[k], marks[k]);
    }
  }

  lemma SendCounts(c: Client, marks: seq<nat>, id: U64, text: string)
    requires |marks| == |c.rooms| && Counted(c, marks)
    ensures Counted(Send(c, id, text), marks)
  {
    forall k | 0 <= k < |c.rooms| ensures CountedRoom(Send(c, id, text), c.rooms[k], marks[k]) {
      assert CountedRoom(c, c.rooms[k], marks[k]);
      TextsAppend(c.messages, ChatMessage(id, text, Me), c.rooms[k].id);
      StaysCounted(c, c.rooms[k], marks[k], Send(c, id, text), c.rooms[k]);
    }
  }

  lemma RenameCounts(c: Client, marks: seq<nat>, id: U64, name: string)
    requires |marks| == |c.rooms| && Counted(c, marks)
    ensures Counted(ConfirmSubscribe(c, id, name), marks)
  {
    var c' := ConfirmSubscribe(c, id, name);
    forall k | 0 <= k < |c'.rooms| ensures CountedRoom(c', c'.rooms[k], marks[k]) {
      assert CountedRoom(c, c.rooms[k], marks[k]);
      StaysCounted(c, c.rooms[k], marks[k], c', c'.rooms[k]);
    }
  }

  /** The operations that do not make a room active or fill it keep the counts as they are marked. */
  lemma QuietCounts(c: Client, op: Op, marks: seq<nat>)
    requires |marks| == |c.rooms| && Counted(c, marks) && IdsUnique(c.rooms) && Integral(c) && NoClash(c, op)
    requires !(op.OnEvent? && op.e.Message?) && !op.DoSelect?
    ensures var c', marks' := Do(c, op), Follow(c, op, marks, 0);
      |marks'| == |c'.rooms| && Counted(c', marks')
  {
    match op
    case OnEvent(RoomConfirmed(id, name, isCreate)) =>
      if isCreate { ConfirmCounts(c, marks, id, name); } else { RenameCounts(c, marks, id, name); }
    case DoCreate(name) =>
      if Do(c, op) != c {
        NextIdIsNew(c);
        EnterCounts(c, marks, NextId(c.rooms), name, CreatedText(name));
      }
    case DoSubscribe(input) =>
      if Do(c, op) != c {
        EnterCounts(c, marks, input.value, Placeholder(input.value), SubscribedText(input.value));
      }
    case DoSend(id, text) => SendCounts(c, marks, id, text);
    case DoLeave(id) => DropCounts(c, marks, id, Leave(c, id).active);
    case DoLeaveOpen(id) => DropCounts(c, marks, id, None);
    case _ =>
  }

  lemma StepCounts(c: Client, op: Op, marks: seq<nat>)
    requires |marks| == |c.rooms| && Counted(c, marks) && IdsUnique(c.rooms) && Integral(c)
    requires OnScreen(c, op) && NoClash(c, op)
    ensures |Follow(c, op, marks, 0)| == |Do(c, op).rooms|
    ensures Counted(Do(c, op), Mark(Do(c, op), Follow(c, op, marks, 0)))
  {
    FollowLength(c, op, marks, 0);
    if op.OnEvent? && op.e.Message? {
      DeliverCounts(c, marks, op.e.groupName, op.e.text);
    } else if op.DoSelect? {
      SelectCounts(c, marks, op.id);
    } else {
      QuietCounts(c, op, marks);
      MarkIsIdle(Do(c, op), Follow(c, op, marks, 0));
    }
  }

  /**
   In every tidy run each room's unread count is, modulo 2^32, the number of server messages stored for
   it since it was last active; so it is zero for the active room.
   */
  lemma {:induction false} UnreadIsExact(ops: seq<Op>)
    requires Tidy(ops)
    ensures Counted(DoAll(ops), LastActive(ops))
    decreases |ops|
  {
    if ops != [] {
      var before, op := ops[..|ops| - 1], ops[|ops| - 1];
      UnreadIsExact(before);
      TidyRuns(before);
      StepCounts(DoAll(before), op, LastActive(before));
    }
  }

  /** Without overflow an unread count never exceeds what the room has stored. */
  lemma UnreadIsBounded(ops: seq<Op>, k: nat)
    requires Tidy(ops) && k < |DoAll(ops).rooms|
    requires Stored(DoAll(ops).messages, DoAll(ops).rooms[k].id) < TWO32
    ensures var c := DoAll(ops);
      c.rooms[k].unread == Stored(c.messages, c.rooms[k].id) - LastActive(ops)[k] &&
      (c.active == Some(c.rooms[k].id) ==> c.rooms[k].unread == 0)
  {
    UnreadIsExact(ops);
    SmallCount(DoAll(ops), DoAll(ops).rooms[k], LastActive(ops)[k]);
  }

  lemma SmallCount(c: Client, room: ChatRoom, mark: nat)
    requires CountedRoom(c, room, mark) && Stored(c.messages, room.id) < TWO32
    ensures room.unread == Stored(c.messages, room.id) - mark
    ensures c.active == Some(room.id) ==> room.unread == 0
  {
  }
}
