/** Server and client together: what a client keeps of a room is part of the room's log, in order. */
module Compose {
  import opened Common
  import opened Requests
  import opened Network
  import opened Pipeline
  import opened Delivery
  import opened ClientModel
  import opened ClientState
  import opened ClientViews

  /** The events a client makes of the frames it reads. `raw` gives the line of a frame. */
  function Events(frames: seq<Frame>, raw: Wire -> string): seq<FromServer> {
    if frames == [] then []
    else
      var wire := frames[|frames| - 1].wire;
      Events(frames[..|frames| - 1], raw) + [EventOf(wire, raw(wire))]
  }

  /** The texts of the relayed messages for a group. */
  function NamedTexts(es: seq<FromServer>, group: string): seq<string> {
    if es == [] then []
    else
      var last := es[|es| - 1];
      NamedTexts(es[..|es| - 1], group) + (if last.Message? && last.groupName == group then [last.text] else [])
  }

  // ---------------------------------------------------------------------------
  // The client's side
  // ---------------------------------------------------------------------------

  function ArrivedWith(arrived: seq<FromServer>, op: Op): seq<FromServer> {
    match op
    case OnEvent(e) => arrived + [e]
    case DoConnect => []
    case _ => arrived
  }

  /** All events of the present connection. */
  function Arrived(ops: seq<Op>): seq<FromServer> {
    if ops == [] then [] else ArrivedWith(Arrived(ops[..|ops| - 1]), ops[|ops| - 1])
  }

  /** An event that changes rooms or messages. The others report on the connection, or on a refusal. */
  predicate Telling(e: FromServer) {
    e.Message? || e.RoomConfirmed?
  }

  function Told(es: seq<FromServer>): seq<FromServer> {
    if es == [] then []
    else
      var last := es[|es| - 1];
      Told(es[..|es| - 1]) + (if Telling(last) then [last] else [])
  }

  /** The telling events of the present connection. */
  function Heard(ops: seq<Op>): seq<FromServer> {
    Told(Arrived(ops))
  }

  lemma ToldAppend(es: seq<FromServer>, e: FromServer)
    ensures Told(es + [e]) == Told(es) + (if Telling(e) then [e] else [])
  {
    assert (es + [e])[..|es|] == es;
  }

  /**
   The TCP task has read the lines of `read` and sent their events in order. Reports on the connection may come
   before, between and after them: it is open, it could not be opened, it has ended.
   */
  predicate SentByTask(es: seq<FromServer>, read: seq<Frame>, raw: Wire -> string)
    decreases |es|
  {
    if es == [] then read == []
    else
      var before, last := es[..|es| - 1], es[|es| - 1];
      (!Telling(last) && SentByTask(before, read, raw)) ||
      (read != [] && last == EventOf(read[|read| - 1].wire, raw(read[|read| - 1].wire)) &&
       SentByTask(before, read[..|read| - 1], raw))
  }

  /** What the TCP task can have sent by the time the socket has carried `frames`. */
  ghost predicate FromTask(es: seq<FromServer>, frames: seq<Frame>, raw: Wire -> string) {
    exists n: nat :: n <= |frames| && SentByTask(es, frames[..n], raw)
  }

  lemma {:induction false} EventsPrefix(frames: seq<Frame>, n: nat, raw: Wire -> string)
    requires n <= |frames|
    ensures Events(frames[..n], raw) <= Events(frames, raw)
    decreases |frames|
  {
    if n == |frames| {
      assert frames[..n] == frames;
    } else {
      EventsPrefix(frames[..|frames| - 1], n, raw);
      assert frames[..|frames| - 1][..n] == frames[..n];
    }
  }

  lemma {:induction false} ToldPrefix(es: seq<FromServer>, fs: seq<FromServer>)
    requires es <= fs
    ensures Told(es) <= Told(fs)
    decreases |fs|
  {
    if |es| < |fs| {
      ToldPrefix(es, fs[..|fs| - 1]);
    } else {
      assert es == fs;
    }
  }

  /** Reports on the connection tell nothing. */
  lemma {:induction false} ToldByTask(es: seq<FromServer>, read: seq<Frame>, raw: Wire -> string)
    requires SentByTask(es, read, raw)
    ensures Told(es) == Told(Events(read, raw))
    decreases |es|
  {
    if es != [] {
      var before, last := es[..|es| - 1], es[|es| - 1];
      if !Telling(last) && SentByTask(before, read, raw) {
        ToldByTask(before, read, raw);
        assert Told(before) + [] == Told(before);
      } else {
        ToldByTask(before, read[..|read| - 1], raw);
        ToldAppend(Events(read[..|read| - 1], raw), last);
      }
    }
  }

  /** What a client is told is a prefix of what the frames on the socket tell. */
  lemma TaskTellsAPrefix(es: seq<FromServer>, frames: seq<Frame>, raw: Wire -> string)
    requires FromTask(es, frames, raw)
    ensures Told(es) <= Told(Events(frames, raw))
  {
    var n: nat :| n <= |frames| && SentByTask(es, frames[..n], raw);
    ToldByTask(es, frames[..n], raw);
    EventsPrefix(frames, n, raw);
    ToldPrefix(Events(frames[..n], raw), Events(frames, raw));
  }

  lemma {:induction false} NamedOfTold(es: seq<FromServer>, group: string)
    ensures NamedTexts(Told(es), group) == NamedTexts(es, group)
    decreases |es|
  {
    if es != [] {
      var last, before := es[|es| - 1], es[..|es| - 1];
      NamedOfTold(before, group);
      if Telling(last) {
        NamedAppend(Told(before), last, group);
      } else {
        assert Told(before) + [] == Told(before);
      }
    }
  }

  /** A subscription's confirmation does not rename a room under whose old name messages have come. */
  predicate KeepsName(c: Client, heard: seq<FromServer>, op: Op) {
    match op
    case OnEvent(RoomConfirmed(id, name, false)) =>
      (match IndexOfId(c.rooms, id)
       case None => true
       case Some(i) => c.rooms[i].name == name || NamedTexts(heard, c.rooms[i].name) == [])
    case _ => true
  }

  predicate AllKeepNames(ops: seq<Op>)
    decreases |ops|
  {
    ops == [] ||
    (AllKeepNames(ops[..|ops| - 1]) && KeepsName(DoAll(ops[..|ops| - 1]), Heard(ops[..|ops| - 1]), ops[|ops| - 1]))
  }

  /** The server messages kept for a room are among those heard under its name, in order, none twice. */
  predicate KeptRoom(c: Client, heard: seq<FromServer>, room: ChatRoom) {
    Subsequence(ServerTexts(c.messages, room.id), NamedTexts(heard, room.name))
  }

  predicate Kept(c: Client, heard: seq<FromServer>) {
    forall k :: 0 <= k < |c.rooms| ==> KeptRoom(c, heard, c.rooms[k])
  }

  lemma NamedAppend(es: seq<FromServer>, e: FromServer, group: string)
    ensures NamedTexts(es + [e], group) ==
            NamedTexts(es, group) + (if e.Message? && e.groupName == group then [e.text] else [])
  {
    assert (es + [e])[..|es|] == es;
  }

  lemma BothAppend(xs: seq<string>, ys: seq<string>, x: string)
    requires Subsequence(xs, ys)
    ensures Subsequence(xs + [x], ys + [x])
  {
    assert (xs + [x])[..|xs|] == xs && (ys + [x])[..|ys|] == ys;
  }

  /** A room of which the same is kept and heard stays kept. */
  lemma StaysKept(c: Client, heard: seq<FromServer>, room: ChatRoom,
                  c': Client, heard': seq<FromServer>, room': ChatRoom)
    requires KeptRoom(c, heard, room)
    requires ServerTexts(c'.messages, room'.id) == ServerTexts(c.messages, room.id)
    requires NamedTexts(heard', room'.name) == NamedTexts(heard, room.name)
    ensures KeptRoom(c', heard', room')
  {
  }

  lemma NothingIsKept(c: Client, heard: seq<FromServer>, room: ChatRoom)
    requires ServerTexts(c.messages, room.id) == []
    ensures KeptRoom(c, heard, room)
  {
  }

  /** One room, when a message for `group` is filed under room `i`. */
  lemma MessageKeepsRoom(c: Client, heard: seq<FromServer>, group: string, text: string, i: nat, k: nat)
    requires i < |c.rooms| && k < |c.rooms| && IndexOfName(c.rooms, group) == Some(i)
    requires KeptRoom(c, heard, c.rooms[k]) && IdsUnique(c.rooms)
    ensures KeptRoom(Deliver(c, group, text), heard + [Message(group, text)], Deliver(c, group, text).rooms[k])
  {
    var c', room, e := Deliver(c, group, text), c.rooms[k], Message(group, text);
    var xs, ys := ServerTexts(c.messages, room.id), NamedTexts(heard, room.name);
    NamedAppend(heard, e, room.name);
    TextsAppend(c.messages, ChatMessage(c.rooms[i].id, text, Server), room.id);
    assert c'.rooms[k].id == room.id && c'.rooms[k].name == room.name;
    if k == i {
      BothAppend(xs, ys, text);
      assert ServerTexts(c'.messages, c'.rooms[k].id) == xs + [text];
      assert NamedTexts(heard + [e], c'.rooms[k].name) == ys + [text];
    } else if room.name == group {
      SubsequenceGrows(xs, ys, text);
      assert ServerTexts(c'.messages, c'.rooms[k].id) == xs;
      assert NamedTexts(heard + [e], c'.rooms[k].name) == ys + [text];
    } else {
      StaysKept(c, heard, room, c', heard + [e], c'.rooms[k]);
    }
  }

  lemma MessageKeeps(c: Client, heard: seq<FromServer>, group: string, text: string)
    requires Kept(c, heard) && IdsUnique(c.rooms)
    ensures Kept(Deliver(c, group, text), heard + [Message(group, text)])
  {
    var c', e := Deliver(c, group, text), Message(group, text);
    forall k | 0 <= k < |c'.rooms| ensures KeptRoom(c', heard + [e], c'.rooms[k]) {
      assert KeptRoom(c, heard, c.rooms[k]);
      match IndexOfName(c.rooms, group)
      case Some(i) => MessageKeepsRoom(c, heard, group, text, i, k);
      case None =>
        NamedAppend(heard, e, c.rooms[k].name);
        StaysKept(c, heard, c.rooms[k], c', heard + [e], c'.rooms[k]);
    }
  }

  lemma ConfirmKeepsRoom(c: Client, heard: seq<FromServer>, id: U64, name: string, k: nat)
    requires k < |c.rooms| && KeptRoom(c, heard, c.rooms[k])
    requires IdsUnique(c.rooms) && Integral(c) && FreshId(c, id, name)
    ensures var c' := ConfirmCreate(c, id, name);
      KeptRoom(c', heard + [RoomConfirmed(id, name, true)], c'.rooms[k])
  {
    var c', e := ConfirmCreate(c, id, name), RoomConfirmed(id, name, true);
    NamedAppend(heard, e, c.rooms[k].name);
    if c' != c {
      assert !Listed(c, id);
      TextsRekey(c.messages, c.rooms[IndexOfName(c.rooms, name).value].id, id, c'.rooms[k].id);
    }
    StaysKept(c, heard, c.rooms[k], c', heard + [e], c'.rooms[k]);
  }

  lemma ConfirmKeeps(c: Client, heard: seq<FromServer>, id: U64, name: string)
    requires Kept(c, heard) && IdsUnique(c.rooms) && Integral(c) && FreshId(c, id, name)
    ensures Kept(ConfirmCreate(c, id, name), heard + [RoomConfirmed(id, name, true)])
  {
    var c', e := ConfirmCreate(c, id, name), RoomConfirmed(id, name, true);
    forall k | 0 <= k < |c'.rooms| ensures KeptRoom(c', heard + [e], c'.rooms[k]) {
      assert KeptRoom(c, heard, c.rooms[k]);
      ConfirmKeepsRoom(c, heard, id, name, k);
    }
  }

  lemma RenameKeeps(c: Client, heard: seq<FromServer>, id: U64, name: string)
    requires Kept(c, heard) && KeepsName(c, heard, OnEvent(RoomConfirmed(id, name, false)))
    ensures Kept(ConfirmSubscribe(c, id, name), heard + [RoomConfirmed(id, name, false)])
  {
    var c', e := ConfirmSubscribe(c, id, name), RoomConfirmed(id, name, false);
    forall k | 0 <= k < |c'.rooms| ensures KeptRoom(c', heard + [e], c'.rooms[k]) {
      assert KeptRoom(c, heard, c.rooms[k]);
      NamedAppend(heard, e, c'.rooms[k].name);
      if c'.rooms[k].name == c.rooms[k].name {
        StaysKept(c, heard, c.rooms[k], c', heard + [e], c'.rooms[k]);
      } else {
        NothingIsKept(c', heard + [e], c'.rooms[k]);
      }
    }
  }

  lemma EnterKeeps(c: Client, heard: seq<FromServer>, id: U64, name: string, text: string)
    requires Kept(c, heard) && Integral(c) && !Listed(c, id)
    ensures Kept(Enter(c, id, name, text), heard)
  {
    var c' := Enter(c, id, name, text);
    NoTexts(c.messages, id);
    forall k | 0 <= k < |c'.rooms| ensures KeptRoom(c', heard, c'.rooms[k]) {
      TextsAppend(c.messages, ChatMessage(id, text, System), c'.rooms[k].id);
      if k < |c.rooms| {
        assert KeptRoom(c, heard, c.rooms[k]);
        StaysKept(c, heard, c.rooms[k], c', heard, c'.rooms[k]);
      } else {
        NothingIsKept(c', heard, c'.rooms[k]);
      }
    }
  }

  lemma DropKeeps(c: Client, heard: seq<FromServer>, id: U64, active: Option<U64>)
    requires Kept(c, heard)
    ensures Kept(Drop(c, id).(active := active), heard)
  {
    var c' := Drop(c, id).(active := active);
    RoomsWithoutAre(c.rooms, id);
    forall k | 0 <= k < |c'.rooms| ensures KeptRoom(c', heard, c'.rooms[k]) {
      var room := c'.rooms[k];
      assert room in c.rooms;
      var j :| 0 <= j < |c.rooms| && c.rooms[j] == room;
      assert KeptRoom(c, heard, c.rooms[j]);
      TextsWithout(c.messages, id, room.id);
      StaysKept(c, heard, room, c', heard, room);
    }
  }

  lemma SendKeeps(c: Client, heard: seq<FromServer>, id: U64, text: string)
    requires Kept(c, heard)
    ensures Kept(Send(c, id, text), heard)
  {
    forall k | 0 <= k < |c.rooms| ensures KeptRoom(Send(c, id, text), heard, c.rooms[k]) {
      assert KeptRoom(c, heard, c.rooms[k]);
      TextsAppend(c.messages, ChatMessage(id, text, Me), c.rooms[k].id);
      StaysKept(c, heard, c.rooms[k], Send(c, id, text), heard, c.rooms[k]);
    }
  }

  lemma SelectKeeps(c: Client, heard: seq<FromServer>, id: U64)
    requires Kept(c, heard)
    ensures Kept(Select(c, id), heard)
  {
    var c' := Select(c, id);
    forall k | 0 <= k < |c'.rooms| ensures KeptRoom(c', heard, c'.rooms[k]) {
      assert KeptRoom(c, heard, c.rooms[k]);
      StaysKept(c, heard, c.rooms[k], c', heard, c'.rooms[k]);
    }
  }

  lemma EventKeeps(c: Client, heard: seq<FromServer>, e: FromServer)
    requires Kept(c, heard) && IdsUnique(c.rooms) && Integral(c) && Telling(e)
    requires NoClash(c, OnEvent(e)) && KeepsName(c, heard, OnEvent(e))
    ensures Kept(HandleEvent(c, e), heard + [e])
  {
    match e
    case Message(group, text) => MessageKeeps(c, heard, group, text);
    case RoomConfirmed(id, name, isCreate) =>
      if isCreate { ConfirmKeeps(c, heard, id, name); } else { RenameKeeps(c, heard, id, name); }
  }

  lemma CreateKeeps(c: Client, heard: seq<FromServer>, name: string)
    requires Kept(c, heard) && Integral(c) && MaxId(c.rooms) + 1 < TWO64
    ensures Kept(ClientModel.Create(c, name), heard)
  {
    NextIdIsNew(c);
    EnterKeeps(c, heard, NextId(c.rooms), name, CreatedText(name));
  }

  lemma SubscribeKeeps(c: Client, heard: seq<FromServer>, input: Option<U64>)
    requires Kept(c, heard) && Integral(c)
    ensures Kept(SubscribeTo(c, input), heard)
  {
    if SubscribeTo(c, input) != c {
      EnterKeeps(c, heard, input.value, Placeholder(input.value), SubscribedText(input.value));
    }
  }

  lemma UserKeeps(c: Client, heard: seq<FromServer>, op: Op)
    requires Kept(c, heard) && Integral(c) && NoClash(c, op) && !op.OnEvent? && !op.DoConnect?
    ensures Kept(Do(c, op), heard)
  {
    match op
    case DoCreate(name) => CreateKeeps(c, heard, name);
    case DoSubscribe(input) => SubscribeKeeps(c, heard, input);
    case DoSelect(id) => SelectKeeps(c, heard, id);
    case DoSend(id, text) => SendKeeps(c, heard, id, text);
    case DoLeave(id) => DropKeeps(c, heard, id, ClientModel.Leave(c, id).active);
    case DoLeaveOpen(id) => DropKeeps(c, heard, id, None);
  }

  lemma OpKeeps(c: Client, arrived: seq<FromServer>, op: Op)
    requires Kept(c, Told(arrived)) && IdsUnique(c.rooms) && Integral(c)
    requires NoClash(c, op) && KeepsName(c, Told(arrived), op)
    ensures Kept(Do(c, op), Told(ArrivedWith(arrived, op)))
  {
    if op.OnEvent? {
      ToldAppend(arrived, op.e);
      if Telling(op.e) {
        EventKeeps(c, Told(arrived), op.e);
      } else {
        assert Told(arrived) + [] == Told(arrived);
      }
    } else if !op.DoConnect? {
      UserKeeps(c, Told(arrived), op);
    }
  }

  /** In every tidy run the client keeps, room by room, a part of what it heard under the room's name. */
  lemma {:induction false} ClientKeepsInOrder(ops: seq<Op>)
    requires Tidy(ops) && AllKeepNames(ops)
    ensures Kept(DoAll(ops), Heard(ops))
    decreases |ops|
  {
    if ops != [] {
      var before, op := ops[..|ops| - 1], ops[|ops| - 1];
      ClientKeepsInOrder(before);
      TidyRuns(before);
      OpKeeps(DoAll(before), Arrived(before), op);
    }
  }

  // ---------------------------------------------------------------------------
  // Both sides
  // ---------------------------------------------------------------------------

  /** Channel `c` is the only one of its session whose room has that room's name. */
  predicate OnlyOfItsName(st: State, c: nat)
    requires IsMember(st, c)
  {
    forall d :: 0 <= d < |st.members| && d != c && IsMember(st, d) && st.members[d].owner == st.members[c].owner ==>
                  st.rooms[st.members[d].room].name != st.rooms[st.members[c].room].name
  }

  function Texts(copies: seq<Copy>): (texts: seq<string>)
    ensures |texts| == |copies| && forall k :: 0 <= k < |copies| ==> texts[k] == copies[k].text
  {
    seq(|copies|, k requires 0 <= k < |copies| => copies[k].text)
  }

  /** What the client hears under the room's name is what the listener of its channel forwarded. */
  lemma {:induction false} HeardIsForwarded(st: State, c: nat, frames: seq<Frame>, raw: Wire -> string)
    requires IsMember(st, c) && OnlyOfItsName(st, c)
    requires forall f :: f in frames ==> Tagged(st, st.members[c].owner, f)
    ensures NamedTexts(Events(frames, raw), st.rooms[st.members[c].room].name) == Texts(Forwarded(frames, c))
    decreases |frames|
  {
    if frames != [] {
      var before, last := frames[..|frames| - 1], frames[|frames| - 1];
      HeardIsForwarded(st, c, before, raw);
      assert last in frames && forall f :: f in before ==> f in frames;
      FramesAreUnderstood(last.wire, raw(last.wire));
      NamedAppend(Events(before, raw), EventOf(last.wire, raw(last.wire)), st.rooms[st.members[c].room].name);
    }
  }

  lemma {:induction false} NamedPrefix(es: seq<FromServer>, fs: seq<FromServer>, group: string)
    requires es <= fs
    ensures NamedTexts(es, group) <= NamedTexts(fs, group)
    decreases |fs|
  {
    if |es| < |fs| {
      NamedPrefix(es, fs[..|fs| - 1], group);
    } else {
      assert es == fs;
    }
  }

  lemma {:induction false} SubsequenceOfPrefix(xs: seq<string>, ys: seq<string>, zs: seq<string>)
    requires Subsequence(xs, ys) && ys <= zs
    ensures Subsequence(xs, zs)
    decreases |zs|
  {
    if |ys| < |zs| {
      SubsequenceOfPrefix(xs, ys, zs[..|zs| - 1]);
      SubsequenceGrows(xs, zs[..|zs| - 1], zs[|zs| - 1]);
      assert zs[..|zs| - 1] + [zs[|zs| - 1]] == zs;
    } else {
      assert ys == zs;
    }
  }

  /**
   End to end. A client that has handled what its TCP task sent so far keeps, for a room of the name of channel
   `c`'s room, a subsequence of what `c` is owed: messages of that room's log after the join, in log order, none
   twice, none of its own. Room ids must stay unique on the client, and no other room of the session may have the
   same name.
   */
  lemma ClientKeepsPartOfTheLog(steps: seq<Step>, c: nat, ops: seq<Op>, k: nat, raw: Wire -> string)
    requires Runs(Init, steps) && IsMember(Run(Init, steps), c) && OnlyOfItsName(Run(Init, steps), c)
    requires var st := Run(Init, steps);
      FromTask(Arrived(ops), st.sessions[st.members[c].owner].sent, raw)
    requires Tidy(ops) && AllKeepNames(ops) && k < |DoAll(ops).rooms|
    requires DoAll(ops).rooms[k].name == Run(Init, steps).rooms[Run(Init, steps).members[c].room].name
    ensures Subsequence(ServerTexts(DoAll(ops).messages, DoAll(ops).rooms[k].id), Texts(Owed(Run(Init, steps), c)))
  {
    Reachable(steps);
    ClientKeepsInOrder(ops);
    var st := Run(Init, steps);
    assert KeptRoom(DoAll(ops), Heard(ops), DoAll(ops).rooms[k]);
    TaskTellsAPrefix(Arrived(ops), st.sessions[st.members[c].owner].sent, raw);
    LogHoldsWhatWasHeard(st, c, Heard(ops), raw);
    SubsequenceOfPrefix(ServerTexts(DoAll(ops).messages, DoAll(ops).rooms[k].id),
                        NamedTexts(Heard(ops), DoAll(ops).rooms[k].name), Texts(Owed(st, c)));
  }

  lemma LogHoldsWhatWasHeard(st: State, c: nat, heard: seq<FromServer>, raw: Wire -> string)
    requires Good(st) && IsMember(st, c) && OnlyOfItsName(st, c)
    requires heard <= Told(Events(st.sessions[st.members[c].owner].sent, raw))
    ensures NamedTexts(heard, st.rooms[st.members[c].room].name) <= Texts(Owed(st, c))
  {
    var s := st.members[c].owner;
    var sent, group := st.sessions[s].sent, st.rooms[st.members[c].room].name;
    assert SessionBooks(st, s);
    forall f | f in sent ensures Tagged(st, s, f) {
      assert f in st.sessions[s].accepted;
    }
    HeardIsForwarded(st, c, sent, raw);
    NamedPrefix(heard, Told(Events(sent, raw)), group);
    NamedOfTold(Events(sent, raw), group);
    ReceivedIsPrefixAt(st, c);
    assert Texts(Received(st, c)) <= Texts(Owed(st, c));
  }
}
