/**
 The server as a step machine. A step is what one task does between two points at which another
 task can be seen: one critical section of a channel or of the directory, one turn of a loop, one
 socket write. Any number of sessions, rooms and subscriptions may exist, and any task may move
 next. The room mutex is held across several steps by a fan-out and is therefore explicit.

 History fields that no step reads back: `log`, `joined`, `taken`, `accepted`, `sent`, `served`,
 the position `at` of a copy, and the tags `chan` and `at` of a forwarded frame.
 */
module Pipeline {
  import opened Common
  import opened ChannelModel
  import opened Requests

  /** A message in the order in which its sender obtained the room mutex. */
  datatype Entry = Entry(sender: nat, text: string)

  /** What the fan-out hands to the subscribers: the text, and the message's position in the room's log. */
  datatype Copy = Copy(at: nat, text: string)

  /** The room mutex. The variables of a running fan-out loop are kept with it. */
  datatype Lock = Free | Held(holder: nat) | Fan(holder: nat, copy: Copy, next: nat)

  datatype Room = Room(id: U64, name: string, connections: seq<nat>, lock: Lock, log: seq<Entry>)

  /** The coroutine `spawn_listener`. */
  datatype ListenerPc = Unspawned | Top | Locked | Reading | InHand(copy: Copy) | Exited

  /** A subscriber channel, the listener that drains it, and who pushed it where. */
  datatype Member = Member(owner: nat, room: nat, slot: nat, joined: nat,
                           ch: Chan<Copy>, pc: ListenerPc, taken: seq<Copy>)

  /** A frame in a write channel. `chan` and `at` say which listener forwarded what; they are not sent. */
  datatype Frame = Reply(wire: Wire) | Forward(chan: nat, at: nat, wire: Wire)

  /** The coroutine `socket_writer`; `lost` is the frame whose send failed, if that ended it. */
  datatype WriterPc = Fetching | Sending(frame: Frame) | Stopped(lost: seq<Frame>)

  /** The coroutine `tcp_accept`. */
  datatype SessionPc =
    | Idle
    | Answering(wire: Wire)
    | Creating(name: string, line: Line)
    | Joining(room: nat, created: bool)
    | Pushed(room: nat, chan: nat, created: bool)
    | Spawned(room: nat, chan: nat, created: bool)
    | Posting(room: nat, text: string)
    | Fanning(room: nat)
    | Rejecting(room: nat)
    | Closing(todo: set<nat>)
    | Done

  /** A line, the directory and the subscriptions it was judged by, and the decision. */
  datatype Served = Served(line: Line, keys: seq<Key>, subs: set<nat>, decision: Decision)

  datatype Session = Session(pc: SessionPc, subs: map<nat, nat>, out: Chan<Frame>, writer: WriterPc,
                             accepted: seq<Frame>, sent: seq<Frame>, served: seq<Served>)

  datatype State = State(rooms: seq<Room>, members: seq<Member>, sessions: seq<Session>)

  datatype Step =
    | Accept
    | Receive(s: nat, line: Line)
    | Hangup(s: nat)
    | CreateRoom(s: nat)
    | Push(s: nat)
    | Spawn(s: nat)
    | Emplace(s: nat)
    | Respond(s: nat)
    | Acquire(s: nat)
    | FanOne(s: nat)
    | Unlock(s: nat)
    | Reject(s: nat)
    | CloseOne(s: nat, r: nat)
    | Finish(s: nat)
    | ListenTop(c: nat)
    | ListenCheck(c: nat)
    | ListenPoll(c: nat, atomic: bool)
    | ListenPark(c: nat)
    | ListenForward(c: nat)
    | WritePoll(s: nat, atomic: bool)
    | WritePark(s: nat)
    | WriteSend(s: nat)
    | WriteFail(s: nat)

  const Init := State([], [], [])

  function KeyOf(room: Room): Key {
    Key(room.id, room.name)
  }

  function Keys(rooms: seq<Room>): (keys: seq<Key>)
    ensures |keys| == |rooms|
    ensures forall r :: 0 <= r < |rooms| ==> keys[r] == KeyOf(rooms[r])
  {
    seq(|rooms|, r requires 0 <= r < |rooms| => KeyOf(rooms[r]))
  }

  /** Where dispatch sends the session. `cleanup` closes the session's channels in any order. */
  function After(action: Decision, subs: map<nat, nat>, line: Line): SessionPc {
    match action
    case Ignore => Idle
    case Answer(w) => Answering(w)
    case Join(r) => Joining(r, false)
    case Create(name) => Creating(name, line)
    case Post(r, t) => Posting(r, t)
    case Leave => Closing(subs.Keys)
  }

  /** A write to the session's write channel, with its trace in the history. */
  function Emit(se: Session, f: Frame): Session {
    se.(out := Put(se.out, f), accepted := if se.out.closed then se.accepted else se.accepted + [f])
  }

  /** A `weak_ptr` to the channel is expired: the session has dropped it and no listener holds it. */
  predicate Expired(st: State, c: nat)
    requires c < |st.members| && st.members[c].owner < |st.sessions|
  {
    var m := st.members[c];
    st.sessions[m.owner].pc.Done? && (m.pc.Unspawned? || m.pc.Top? || m.pc.Exited?)
  }

  predicate Has(st: State, s: nat) { s < |st.sessions| }

  predicate IsMember(st: State, c: nat) {
    c < |st.members| && st.members[c].owner < |st.sessions| && st.members[c].room < |st.rooms|
  }

  predicate Enabled(st: State, step: Step) {
    match step
    case Accept => true
    case Receive(s, _) => Has(st, s) && st.sessions[s].pc.Idle?
    case Hangup(s) => Has(st, s) && st.sessions[s].pc.Idle?
    case CreateRoom(s) => Has(st, s) && st.sessions[s].pc.Creating?
    case Push(s) =>
      Has(st, s) && st.sessions[s].pc.Joining? &&
      st.sessions[s].pc.room < |st.rooms| && st.rooms[st.sessions[s].pc.room].lock.Free?
    case Spawn(s) =>
      Has(st, s) && st.sessions[s].pc.Pushed? && st.sessions[s].pc.chan < |st.members|
    case Emplace(s) =>
      Has(st, s) && st.sessions[s].pc.Spawned? && st.sessions[s].pc.room < |st.rooms|
    case Respond(s) => Has(st, s) && st.sessions[s].pc.Answering?
    case Acquire(s) =>
      Has(st, s) && st.sessions[s].pc.Posting? &&
      st.sessions[s].pc.room < |st.rooms| && st.rooms[st.sessions[s].pc.room].lock.Free?
    case FanOne(s) =>
      Has(st, s) && st.sessions[s].pc.Fanning? && st.sessions[s].pc.room < |st.rooms| &&
      st.sessions[s].pc.room in st.sessions[s].subs &&
      var room := st.rooms[st.sessions[s].pc.room];
      room.lock.Fan? && room.lock.next < |room.connections| &&
      IsMember(st, room.connections[room.lock.next])
    case Unlock(s) =>
      Has(st, s) && st.sessions[s].pc.Fanning? && st.sessions[s].pc.room < |st.rooms| &&
      var room := st.rooms[st.sessions[s].pc.room];
      room.lock.Fan? && room.lock.next == |room.connections|
    case Reject(s) =>
      Has(st, s) && st.sessions[s].pc.Rejecting? && st.sessions[s].pc.room < |st.rooms|
    case CloseOne(s, r) =>
      Has(st, s) && st.sessions[s].pc.Closing? && r in st.sessions[s].pc.todo &&
      r in st.sessions[s].subs && st.sessions[s].subs[r] < |st.members|
    case Finish(s) => Has(st, s) && st.sessions[s].pc.Closing? && st.sessions[s].pc.todo == {}
    case ListenTop(c) => IsMember(st, c) && st.members[c].pc.Top?
    case ListenCheck(c) => IsMember(st, c) && st.members[c].pc.Locked?
    case ListenPoll(c, _) =>
      IsMember(st, c) && st.members[c].pc.Reading? && st.members[c].ch.reader.Polling?
    case ListenPark(c) =>
      IsMember(st, c) && st.members[c].pc.Reading? && st.members[c].ch.reader.Window?
    case ListenForward(c) => IsMember(st, c) && st.members[c].pc.InHand?
    case WritePoll(s, _) =>
      Has(st, s) && st.sessions[s].writer.Fetching? && st.sessions[s].out.reader.Polling?
    case WritePark(s) =>
      Has(st, s) && st.sessions[s].writer.Fetching? && st.sessions[s].out.reader.Window?
    case WriteSend(s) => Has(st, s) && st.sessions[s].writer.Sending?
    case WriteFail(s) => Has(st, s) && st.sessions[s].writer.Sending?
  }

  function SetSession(st: State, s: nat, se: Session): State
    requires Has(st, s)
  {
    st.(sessions := st.sessions[s := se])
  }

  function SetPc(st: State, s: nat, pc: SessionPc): State
    requires Has(st, s)
  {
    SetSession(st, s, st.sessions[s].(pc := pc))
  }

  function SetMember(st: State, c: nat, m: Member): State
    requires c < |st.members|
  {
    st.(members := st.members[c := m])
  }

  function SetRoom(st: State, r: nat, room: Room): State
    requires r < |st.rooms|
  {
    st.(rooms := st.rooms[r := room])
  }

  const NewSession := Session(Idle, map[], Begin(Fresh<Frame>()), Fetching, [], [], [])

  /** One line is dispatched. A `csub` consults the directory only in the next step. */
  function Dispatched(keys: seq<Key>, se: Session, line: Line, action: Decision): Session {
    var entry := if action.Create? then [] else [Served(line, keys, se.subs.Keys, action)];
    se.(pc := After(action, se.subs, line), served := se.served + entry)
  }

  function DoReceive(st: State, s: nat, line: Line): State
    requires Has(st, s)
  {
    var keys, se := Keys(st.rooms), st.sessions[s];
    SetSession(st, s, Dispatched(keys, se, line, Decide(keys, se.subs.Keys, line)))
  }

  /** The critical section of `handle_create_and_sub` under the directory mutex. */
  function DoCreateRoom(st: State, s: nat): State
    requires Enabled(st, CreateRoom(s))
  {
    var se, n := st.sessions[s], |st.rooms|;
    var entry := Served(se.pc.line, Keys(st.rooms), se.subs.Keys, Decision.Create(se.pc.name));
    var se' := se.(pc := Joining(n, true), served := se.served + [entry]);
    SetSession(st.(rooms := st.rooms + [Room(NewId(n), se.pc.name, [], Free, [])]), s, se')
  }

  /** `sub_to_room`: a new channel goes to the end of the room's connections. */
  function DoPush(st: State, s: nat): State
    requires Enabled(st, Push(s))
  {
    var pc := st.sessions[s].pc;
    var room, c := st.rooms[pc.room], |st.members|;
    var m := Member(s, pc.room, |room.connections|, |room.log|, Fresh(), Unspawned, []);
    SetPc(SetRoom(st.(members := st.members + [m]), pc.room, room.(connections := room.connections + [c])),
          s, Pushed(pc.room, c, pc.created))
  }

  function DoSpawn(st: State, s: nat): State
    requires Enabled(st, Spawn(s))
  {
    var pc := st.sessions[s].pc;
    SetPc(SetMember(st, pc.chan, st.members[pc.chan].(pc := Top)), s, Spawned(pc.room, pc.chan, pc.created))
  }

  function DoEmplace(st: State, s: nat): State
    requires Enabled(st, Emplace(s))
  {
    var se := st.sessions[s];
    var wire := Confirmation(KeyOf(st.rooms[se.pc.room]), se.pc.created);
    var subs := if se.pc.room in se.subs then se.subs else se.subs[se.pc.room := se.pc.chan];
    SetSession(st, s, se.(pc := Answering(wire), subs := subs))
  }

  /** The room mutex is taken, and membership is checked under it. */
  function DoAcquire(st: State, s: nat): State
    requires Enabled(st, Acquire(s))
  {
    var se := st.sessions[s];
    var r, t := se.pc.room, se.pc.text;
    var room := st.rooms[r];
    if r in se.subs then
      var room' := room.(lock := Fan(s, Copy(|room.log|, t), 0), log := room.log + [Entry(s, t)]);
      SetPc(SetRoom(st, r, room'), s, Fanning(r))
    else
      SetPc(SetRoom(st, r, room.(lock := Held(s))), s, Rejecting(r))
  }

  /** One turn of the fan-out loop. */
  function DoFanOne(st: State, s: nat): State
    requires Enabled(st, FanOne(s))
  {
    var r := st.sessions[s].pc.room;
    var room := st.rooms[r];
    var c := room.connections[room.lock.next];
    var st' := SetRoom(st, r, room.(lock := room.lock.(next := room.lock.next + 1)));
    if Expired(st, c) || c == st.sessions[s].subs[r] then st'
    else SetMember(st', c, st.members[c].(ch := Put(st.members[c].ch, room.lock.copy)))
  }

  function DoUnlock(st: State, s: nat): State
    requires Enabled(st, Unlock(s))
  {
    var r := st.sessions[s].pc.room;
    SetPc(SetRoom(st, r, st.rooms[r].(lock := Free)), s, Idle)
  }

  function DoReject(st: State, s: nat): State
    requires Enabled(st, Reject(s))
  {
    var r := st.sessions[s].pc.room;
    var se := Emit(st.sessions[s], Reply(NOT_SUBSCRIBED));
    SetSession(SetRoom(st, r, st.rooms[r].(lock := Free)), s, se.(pc := Idle))
  }

  function DoCloseOne(st: State, s: nat, r: nat): State
    requires Enabled(st, CloseOne(s, r))
  {
    var se := st.sessions[s];
    var c := se.subs[r];
    SetPc(SetMember(st, c, st.members[c].(ch := Shut(st.members[c].ch))), s, Closing(se.pc.todo - {r}))
  }

  function DoListenPoll(st: State, c: nat, atomic: bool): State
    requires Enabled(st, ListenPoll(c, atomic))
  {
    var m := st.members[c];
    var ch := Poll(m.ch, atomic);
    SetMember(st, c, match Look(m.ch)
                     case Value(x) => m.(ch := ch, pc := InHand(x), taken := m.taken + [x])
                     case Aborted => m.(ch := ch, pc := Exited)
                     case Empty => m.(ch := ch))
  }

  function DoListenForward(st: State, c: nat): State
    requires Enabled(st, ListenForward(c))
  {
    var m := st.members[c];
    var frame := Forward(c, m.pc.copy.at, Relay(m.pc.copy.text, st.rooms[m.room].name));
    SetSession(SetMember(st, c, m.(pc := Top)), m.owner, Emit(st.sessions[m.owner], frame))
  }

  function DoWritePoll(st: State, s: nat, atomic: bool): State
    requires Enabled(st, WritePoll(s, atomic))
  {
    var se := st.sessions[s];
    var out := Poll(se.out, atomic);
    SetSession(st, s, match Look(se.out)
                      case Value(f) => se.(out := out, writer := Sending(f))
                      case Aborted => se.(out := out, writer := Stopped([]))
                      case Empty => se.(out := out))
  }

  function Next(st: State, step: Step): State
    requires Enabled(st, step)
  {
    match step
    case Accept => st.(sessions := st.sessions + [NewSession])
    case Receive(s, line) => DoReceive(st, s, line)
    case Hangup(s) => SetPc(st, s, Closing(st.sessions[s].subs.Keys))
    case CreateRoom(s) => DoCreateRoom(st, s)
    case Push(s) => DoPush(st, s)
    case Spawn(s) => DoSpawn(st, s)
    case Emplace(s) => DoEmplace(st, s)
    case Respond(s) => SetSession(st, s, Emit(st.sessions[s], Reply(st.sessions[s].pc.wire)).(pc := Idle))
    case Acquire(s) => DoAcquire(st, s)
    case FanOne(s) => DoFanOne(st, s)
    case Unlock(s) => DoUnlock(st, s)
    case Reject(s) => DoReject(st, s)
    case CloseOne(s, r) => DoCloseOne(st, s, r)
    case Finish(s) => SetSession(st, s, st.sessions[s].(pc := Done, out := Shut(st.sessions[s].out)))
    case ListenTop(c) => SetMember(st, c, st.members[c].(pc := if Expired(st, c) then Exited else Locked))
    case ListenCheck(c) =>
      var m := st.members[c];
      SetMember(st, c, if m.ch.closed then m.(pc := Exited) else m.(pc := Reading, ch := Begin(m.ch)))
    case ListenPoll(c, atomic) => DoListenPoll(st, c, atomic)
    case ListenPark(c) => SetMember(st, c, st.members[c].(ch := Park(st.members[c].ch)))
    case ListenForward(c) => DoListenForward(st, c)
    case WritePoll(s, atomic) => DoWritePoll(st, s, atomic)
    case WritePark(s) => SetSession(st, s, st.sessions[s].(out := Park(st.sessions[s].out)))
    case WriteSend(s) =>
      var se := st.sessions[s];
      SetSession(st, s, se.(writer := Fetching, out := Begin(se.out), sent := se.sent + [se.writer.frame]))
    case WriteFail(s) =>
      SetSession(st, s, st.sessions[s].(writer := Stopped([st.sessions[s].writer.frame])))
  }

  /** A schedule: every step is enabled where it is taken. */
  predicate Runs(st: State, steps: seq<Step>)
    decreases |steps|, 0
  {
    steps == [] || (Runs(st, steps[..|steps| - 1]) && Enabled(Run(st, steps[..|steps| - 1]), steps[|steps| - 1]))
  }

  function Run(st: State, steps: seq<Step>): State
    requires Runs(st, steps)
    decreases |steps|, 1
  {
    if steps == [] then st else Next(Run(st, steps[..|steps| - 1]), steps[|steps| - 1])
  }

  /** A step one thread can take: the check and the wait of `async_read` are not separated. */
  predicate SingleThreaded(step: Step) {
    match step
    case ListenPoll(_, atomic) => atomic
    case WritePoll(_, atomic) => atomic
    case ListenPark(_) => false
    case WritePark(_) => false
    case _ => true
  }
}
