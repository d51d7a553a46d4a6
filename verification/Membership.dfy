/**
 Who belongs where, in every reachable state: the room mutexes, the connection lists, the sessions'
 subscription maps and the channels agree, whatever order the tasks move in.
 */
module Membership {
  import opened ChannelModel
  import opened Requests
  import opened Pipeline

  predicate InWindow(pc: SessionPc) {
    pc.Pushed? || pc.Spawned?
  }

  predicate Newest(log: seq<Entry>, e: Entry) {
    log != [] && log[|log| - 1] == e
  }

  /** The mutex is held by exactly the session that is inside the critical section. */
  predicate LockOk(st: State, r: nat)
    requires r < |st.rooms|
  {
    match st.rooms[r].lock
    case Free => true
    case Held(p) => p < |st.sessions| && st.sessions[p].pc == Rejecting(r)
    case Fan(p, copy, next) =>
      p < |st.sessions| && st.sessions[p].pc == Fanning(r) && next <= |st.rooms[r].connections| &&
      Newest(st.rooms[r].log, Entry(p, copy.text)) && copy.at == |st.rooms[r].log| - 1
  }

  predicate RoomOk(st: State, r: nat)
    requires r < |st.rooms|
  {
    var room := st.rooms[r];
    && room.id == NewId(r)
    && LockOk(st, r)
    && forall k :: 0 <= k < |room.connections| ==>
      room.connections[k] < |st.members| &&
      st.members[room.connections[k]].room == r && st.members[room.connections[k]].slot == k
  }

  /** The session that pushed channel `c` knows it, in its map or in the push-to-emplace window. */
  predicate Known(se: Session, c: nat, r: nat) {
    if InWindow(se.pc) && se.pc.room == r then se.pc.chan == c else r in se.subs && se.subs[r] == c
  }

  /** Channels are closed by their session's `cleanup` and by nothing else. */
  predicate ClosedBy(se: Session, r: nat) {
    se.pc.Done? || (se.pc.Closing? && r !in se.pc.todo)
  }

  predicate MemberOk(st: State, c: nat)
    requires c < |st.members|
  {
    var m := st.members[c];
    && m.owner < |st.sessions| && m.room < |st.rooms|
    && m.slot < |st.rooms[m.room].connections| && st.rooms[m.room].connections[m.slot] == c
    && m.joined <= |st.rooms[m.room].log|
    && Known(st.sessions[m.owner], c, m.room)
    && (m.ch.closed <==> ClosedBy(st.sessions[m.owner], m.room))
    && (m.pc.Unspawned? <==> st.sessions[m.owner].pc.Pushed? && st.sessions[m.owner].pc.chan == c)
    && (m.pc.Reading? <==> m.ch.reader != Away)
  }

  predicate Owns(st: State, s: nat, r: nat, c: nat) {
    c < |st.members| && st.members[c].owner == s && st.members[c].room == r
  }

  predicate PcOk(st: State, s: nat)
    requires s < |st.sessions|
  {
    var se := st.sessions[s];
    match se.pc
    case Joining(r, _) => r < |st.rooms| && r !in se.subs
    case Pushed(r, c, _) => r < |st.rooms| && r !in se.subs && Owns(st, s, r, c)
    case Spawned(r, c, _) => r < |st.rooms| && r !in se.subs && Owns(st, s, r, c)
    case Posting(r, _) => r < |st.rooms|
    case Fanning(r) =>
      r < |st.rooms| && r in se.subs && st.rooms[r].lock.Fan? && st.rooms[r].lock.holder == s
    case Rejecting(r) => r < |st.rooms| && r !in se.subs && st.rooms[r].lock == Held(s)
    case Closing(todo) => todo <= se.subs.Keys
    case _ => true
  }

  predicate SessionOk(st: State, s: nat)
    requires s < |st.sessions|
  {
    var se := st.sessions[s];
    && PcOk(st, s)
    && (forall r :: r in se.subs ==> r < |st.rooms| && Owns(st, s, r, se.subs[r]))
    && (se.out.closed <==> se.pc.Done?)
    && (se.writer.Fetching? <==> se.out.reader != Away)
  }

  predicate Inv(st: State) {
    && (forall r :: 0 <= r < |st.rooms| ==> RoomOk(st, r))
    && (forall c :: 0 <= c < |st.members| ==> MemberOk(st, c))
    && (forall s :: 0 <= s < |st.sessions| ==> SessionOk(st, s))
  }

  // ---------------------------------------------------------------------------
  // Every step keeps the invariant
  // ---------------------------------------------------------------------------

  /** A session moves on while its subscriptions and what it has closed stay as they are. */
  lemma SessionMoves(st: State, s: nat, se: Session)
    requires Inv(st) && Has(st, s) && SessionOk(SetSession(st, s, se), s)
    requires se.subs == st.sessions[s].subs
    requires se.pc == st.sessions[s].pc ||
             (!InWindow(se.pc) && !InWindow(st.sessions[s].pc) &&
              !st.sessions[s].pc.Fanning? && !st.sessions[s].pc.Rejecting?)
    requires forall r :: r in se.subs ==> (ClosedBy(se, r) <==> ClosedBy(st.sessions[s], r))
    ensures Inv(SetSession(st, s, se))
  {
    var st' := SetSession(st, s, se);
    assert SessionOk(st, s);
    forall r | 0 <= r < |st'.rooms| ensures RoomOk(st', r) { assert RoomOk(st, r); }
    forall c | 0 <= c < |st'.members| ensures MemberOk(st', c) { assert MemberOk(st, c); }
    forall p | 0 <= p < |st'.sessions| ensures SessionOk(st', p) { assert SessionOk(st, p); }
  }

  /** A channel or its listener moves on. */
  lemma MemberMoves(st: State, c: nat, m: Member)
    requires Inv(st) && c < |st.members| && MemberOk(SetMember(st, c, m), c)
    requires m.owner == st.members[c].owner && m.room == st.members[c].room && m.slot == st.members[c].slot
    ensures Inv(SetMember(st, c, m))
  {
    var st' := SetMember(st, c, m);
    forall r | 0 <= r < |st'.rooms| ensures RoomOk(st', r) { assert RoomOk(st, r); }
    forall k | 0 <= k < |st'.members| ensures MemberOk(st', k) { assert MemberOk(st, k); }
    forall p | 0 <= p < |st'.sessions| ensures SessionOk(st', p) { assert SessionOk(st, p); }
  }

  /** A session enters or leaves the critical section of room `r`. */
  lemma LockMoves(st: State, s: nat, pc: SessionPc, r: nat, lock: Lock, log: seq<Entry>)
    requires Inv(st) && Has(st, s) && r < |st.rooms| && st.rooms[r].log <= log
    requires st.rooms[r].lock.Free? || st.rooms[r].lock.holder == s
    requires st.sessions[s].pc.Posting? || st.sessions[s].pc == Fanning(r) || st.sessions[s].pc == Rejecting(r)
    requires pc.Idle? || pc == Fanning(r) || pc == Rejecting(r)
    requires match lock
             case Free => pc.Idle?
             case Held(p) => p == s && pc == Rejecting(r) && r !in st.sessions[s].subs
             case Fan(p, copy, next) => p == s && pc == Fanning(r) && r in st.sessions[s].subs &&
                                        next <= |st.rooms[r].connections| &&
                                        Newest(log, Entry(p, copy.text)) && copy.at == |log| - 1
    ensures Inv(SetPc(SetRoom(st, r, st.rooms[r].(lock := lock, log := log)), s, pc))
  {
    var st' := SetPc(SetRoom(st, r, st.rooms[r].(lock := lock, log := log)), s, pc);
    assert SessionOk(st, s) && RoomOk(st, r);
    forall k | 0 <= k < |st'.rooms| ensures RoomOk(st', k) { assert RoomOk(st, k); }
    forall c | 0 <= c < |st'.members| ensures MemberOk(st', c) { assert MemberOk(st, c); }
    forall p | 0 <= p < |st'.sessions| ensures SessionOk(st', p) { assert SessionOk(st, p); }
  }

  lemma AcceptKeeps(st: State)
    requires Inv(st)
    ensures Inv(Next(st, Accept))
  {
    var st' := Next(st, Accept);
    forall r | 0 <= r < |st'.rooms| ensures RoomOk(st', r) { assert RoomOk(st, r); }
    forall c | 0 <= c < |st'.members| ensures MemberOk(st', c) { assert MemberOk(st, c); }
    forall p | 0 <= p < |st'.sessions| ensures SessionOk(st', p) { if p < |st.sessions| { assert SessionOk(st, p); } }
  }

  lemma CreateRoomKeeps(st: State, s: nat)
    requires Inv(st) && Enabled(st, CreateRoom(s))
    ensures Inv(DoCreateRoom(st, s))
  {
    var st' := DoCreateRoom(st, s);
    assert SessionOk(st, s);
    forall r | 0 <= r < |st'.rooms| ensures RoomOk(st', r) { if r < |st.rooms| { assert RoomOk(st, r); } }
    forall c | 0 <= c < |st'.members| ensures MemberOk(st', c) { assert MemberOk(st, c); }
    forall p | 0 <= p < |st'.sessions| ensures SessionOk(st', p) { assert SessionOk(st, p); }
  }

  lemma PushKeeps(st: State, s: nat)
    requires Inv(st) && Enabled(st, Push(s))
    ensures Inv(DoPush(st, s))
  {
    var st' := DoPush(st, s);
    assert SessionOk(st, s);
    forall r | 0 <= r < |st'.rooms| ensures RoomOk(st', r) { assert RoomOk(st, r); }
    forall c | 0 <= c < |st'.members| ensures MemberOk(st', c) { if c < |st.members| { assert MemberOk(st, c); } }
    forall p | 0 <= p < |st'.sessions| ensures SessionOk(st', p) { assert SessionOk(st, p); }
  }

  lemma SpawnKeeps(st: State, s: nat)
    requires Inv(st) && Enabled(st, Spawn(s))
    ensures Inv(DoSpawn(st, s))
  {
    var st' := DoSpawn(st, s);
    assert SessionOk(st, s);
    forall r | 0 <= r < |st'.rooms| ensures RoomOk(st', r) { assert RoomOk(st, r); }
    forall c | 0 <= c < |st'.members| ensures MemberOk(st', c) { assert MemberOk(st, c); }
    forall p | 0 <= p < |st'.sessions| ensures SessionOk(st', p) { assert SessionOk(st, p); }
  }

  lemma EmplaceKeeps(st: State, s: nat)
    requires Inv(st) && Enabled(st, Emplace(s))
    ensures Inv(DoEmplace(st, s))
  {
    var st' := DoEmplace(st, s);
    assert SessionOk(st, s);
    forall r | 0 <= r < |st'.rooms| ensures RoomOk(st', r) { assert RoomOk(st, r); }
    forall c | 0 <= c < |st'.members| ensures MemberOk(st', c) { assert MemberOk(st, c); }
    forall p | 0 <= p < |st'.sessions| ensures SessionOk(st', p) { assert SessionOk(st, p); }
  }

  lemma CloseOneKeeps(st: State, s: nat, r: nat)
    requires Inv(st) && Enabled(st, CloseOne(s, r))
    ensures Inv(DoCloseOne(st, s, r))
  {
    var st' := DoCloseOne(st, s, r);
    assert SessionOk(st, s);
    forall k | 0 <= k < |st'.rooms| ensures RoomOk(st', k) { assert RoomOk(st, k); }
    forall c | 0 <= c < |st'.members| ensures MemberOk(st', c) { assert MemberOk(st, c); }
    forall p | 0 <= p < |st'.sessions| ensures SessionOk(st', p) { assert SessionOk(st, p); }
  }

  lemma FanOneKeeps(st: State, s: nat)
    requires Inv(st) && Enabled(st, FanOne(s))
    ensures Inv(DoFanOne(st, s))
  {
    var r := st.sessions[s].pc.room;
    var room := st.rooms[r];
    var c := room.connections[room.lock.next];
    assert SessionOk(st, s) && MemberOk(st, c) && RoomOk(st, r);
    LockMoves(st, s, Fanning(r), r, room.lock.(next := room.lock.next + 1), room.log);
    var st1 := SetRoom(st, r, room.(lock := room.lock.(next := room.lock.next + 1)));
    assert SetPc(st1, s, Fanning(r)) == st1;
    if DoFanOne(st, s) != st1 {
      assert MemberOk(st1, c);
      MemberMoves(st1, c, st.members[c].(ch := Put(st.members[c].ch, room.lock.copy)));
    }
  }

  lemma RejectKeeps(st: State, s: nat)
    requires Inv(st) && Enabled(st, Reject(s))
    ensures Inv(DoReject(st, s))
  {
    var r := st.sessions[s].pc.room;
    assert SessionOk(st, s);
    LockMoves(st, s, Idle, r, Free, st.rooms[r].log);
    var st1 := SetPc(SetRoom(st, r, st.rooms[r].(lock := Free)), s, Idle);
    assert SessionOk(st1, s);
    var se := Emit(st1.sessions[s], Reply(NOT_SUBSCRIBED));
    SessionMoves(st1, s, se);
    assert SetSession(st1, s, se) == DoReject(st, s);
  }

  lemma ForwardKeeps(st: State, c: nat)
    requires Inv(st) && Enabled(st, ListenForward(c))
    ensures Inv(DoListenForward(st, c))
  {
    var m := st.members[c];
    assert MemberOk(st, c) && SessionOk(st, m.owner);
    MemberMoves(st, c, m.(pc := Top));
    var st1 := SetMember(st, c, m.(pc := Top));
    assert SessionOk(st1, m.owner);
    SessionMoves(st1, m.owner,
                 Emit(st.sessions[m.owner], Forward(c, m.pc.copy.at, Relay(m.pc.copy.text, st.rooms[m.room].name))));
  }

  lemma WriterStepKeeps(st: State, step: Step, s: nat)
    requires Inv(st) && Enabled(st, step)
    requires (step.WritePoll? && step.s == s) || step == WritePark(s) || step == WriteSend(s) || step == WriteFail(s)
    ensures Inv(Next(st, step))
  {
    assert SessionOk(st, s);
    SessionMoves(st, s, Next(st, step).sessions[s]);
  }

  lemma SessionStepKeeps(st: State, step: Step, s: nat)
    requires Inv(st) && Enabled(st, step)
    requires step == Hangup(s) || step == Respond(s) || step == Finish(s)
    ensures Inv(Next(st, step))
  {
    assert SessionOk(st, s);
    SessionMoves(st, s, Next(st, step).sessions[s]);
  }

  lemma ListenerStepKeeps(st: State, step: Step, c: nat)
    requires Inv(st) && Enabled(st, step)
    requires step == ListenTop(c) || step == ListenCheck(c) || (step.ListenPoll? && step.c == c) ||
             step == ListenPark(c)
    ensures Inv(Next(st, step))
  {
    assert MemberOk(st, c);
    MemberMoves(st, c, Next(st, step).members[c]);
  }

  lemma ReceiveKeeps(st: State, s: nat, line: Line)
    requires Inv(st) && Enabled(st, Receive(s, line))
    ensures Inv(DoReceive(st, s, line))
  {
    assert SessionOk(st, s);
    DecisionInRange(Keys(st.rooms), st.sessions[s].subs.Keys, line);
    SessionMoves(st, s, DoReceive(st, s, line).sessions[s]);
  }

  lemma AcquireKeeps(st: State, s: nat)
    requires Inv(st) && Enabled(st, Acquire(s))
    ensures Inv(DoAcquire(st, s))
  {
    var r, text := st.sessions[s].pc.room, st.sessions[s].pc.text;
    if r in st.sessions[s].subs {
      LockMoves(st, s, Fanning(r), r, Fan(s, Copy(|st.rooms[r].log|, text), 0), st.rooms[r].log + [Entry(s, text)]);
    } else {
      LockMoves(st, s, Rejecting(r), r, Held(s), st.rooms[r].log);
    }
  }

  lemma UnlockKeeps(st: State, s: nat)
    requires Inv(st) && Enabled(st, Unlock(s))
    ensures Inv(DoUnlock(st, s))
  {
    assert SessionOk(st, s);
    LockMoves(st, s, Idle, st.sessions[s].pc.room, Free, st.rooms[st.sessions[s].pc.room].log);
  }

  lemma RequestStepKeepsInv(st: State, step: Step)
    requires Inv(st) && Enabled(st, step)
    requires step.Accept? || step.Receive? || step.CreateRoom? || step.Push? || step.Spawn? || step.Emplace? ||
             step.Acquire? || step.FanOne? || step.Unlock? || step.Reject? || step.CloseOne?
    ensures Inv(Next(st, step))
  {
    match step
    case Accept => AcceptKeeps(st);
    case Receive(s, line) => ReceiveKeeps(st, s, line);
    case CreateRoom(s) => CreateRoomKeeps(st, s);
    case Push(s) => PushKeeps(st, s);
    case Spawn(s) => SpawnKeeps(st, s);
    case Emplace(s) => EmplaceKeeps(st, s);
    case Acquire(s) => AcquireKeeps(st, s);
    case FanOne(s) => FanOneKeeps(st, s);
    case Unlock(s) => UnlockKeeps(st, s);
    case Reject(s) => RejectKeeps(st, s);
    case CloseOne(s, r) => CloseOneKeeps(st, s, r);
  }

  lemma StepKeepsInv(st: State, step: Step)
    requires Inv(st) && Enabled(st, step)
    ensures Inv(Next(st, step))
  {
    match step
    case ListenTop(c) => ListenerStepKeeps(st, step, c);
    case ListenCheck(c) => ListenerStepKeeps(st, step, c);
    case ListenPoll(c, _) => ListenerStepKeeps(st, step, c);
    case ListenPark(c) => ListenerStepKeeps(st, step, c);
    case ListenForward(c) => ForwardKeeps(st, c);
    case Hangup(s) => SessionStepKeeps(st, step, s);
    case Respond(s) => SessionStepKeeps(st, step, s);
    case Finish(s) => SessionStepKeeps(st, step, s);
    case WritePoll(s, _) => WriterStepKeeps(st, step, s);
    case WritePark(s) => WriterStepKeeps(st, step, s);
    case WriteSend(s) => WriterStepKeeps(st, step, s);
    case WriteFail(s) => WriterStepKeeps(st, step, s);
    case _ => RequestStepKeepsInv(st, step);
  }

  /** Every reachable state satisfies the invariant. */
  lemma {:induction false} ReachableInv(steps: seq<Step>)
    requires Runs(Init, steps)
    ensures Inv(Run(Init, steps))
    decreases |steps|
  {
    if steps != [] {
      var before := steps[..|steps| - 1];
      ReachableInv(before);
      StepKeepsInv(Run(Init, before), steps[|steps| - 1]);
    }
  }

  // ---------------------------------------------------------------------------
  // What the invariant means
  // ---------------------------------------------------------------------------

  predicate StandsAt(st: State, c: nat, r: nat, k: nat) {
    r < |st.rooms| && k < |st.rooms[r].connections| && st.rooms[r].connections[k] == c
  }

  /** Each channel sits at exactly one place of one room's connection list. */
  lemma OnePlace(steps: seq<Step>, c: nat)
    requires Runs(Init, steps) && c < |Run(Init, steps).members|
    ensures var st := Run(Init, steps);
      exists r, k :: StandsAt(st, c, r, k) && forall r', k' :: StandsAt(st, c, r', k') ==> r' == r && k' == k
  {
    ReachableInv(steps);
    var st := Run(Init, steps);
    var m := st.members[c];
    assert MemberOk(st, c);
    assert StandsAt(st, c, m.room, m.slot);
    forall r', k' | StandsAt(st, c, r', k') ensures r' == m.room && k' == m.slot {
      assert RoomOk(st, r');
    }
  }

  /** A session has at most one channel per room. */
  lemma OneChannelPerRoom(st: State, c: nat, c': nat)
    requires Inv(st) && c < |st.members| && c' < |st.members|
    requires st.members[c].owner == st.members[c'].owner && st.members[c].room == st.members[c'].room
    ensures c == c'
  {
    assert MemberOk(st, c) && MemberOk(st, c');
  }

  /**
   Outside the push-to-emplace window the subscription map of a session lists exactly the channels it
   has pushed, so the test `locked != curr_chan` of the fan-out excludes exactly the sender's channel.
   */
  lemma MapsAgree(st: State, s: nat, r: nat, k: nat)
    requires Inv(st) && Has(st, s) && r < |st.rooms| && k < |st.rooms[r].connections|
    ensures st.rooms[r].connections[k] < |st.members|
    ensures !InWindow(st.sessions[s].pc) ==>
      (st.members[st.rooms[r].connections[k]].owner == s <==>
       r in st.sessions[s].subs && st.sessions[s].subs[r] == st.rooms[r].connections[k])
  {
    assert RoomOk(st, r) && SessionOk(st, s);
    assert MemberOk(st, st.rooms[r].connections[k]);
  }

  /** A channel whose every owner is gone has been closed before: `cleanup` runs on every exit. */
  lemma ExpiredIsClosed(st: State, c: nat)
    requires Inv(st) && IsMember(st, c) && Expired(st, c)
    ensures st.members[c].ch.closed
  {
    assert MemberOk(st, c);
  }

  /** The fan-out turn without the liveness test: write to every entry but the sender's. */
  function FanOneToAll(st: State, s: nat): State
    requires Enabled(st, FanOne(s))
  {
    var r := st.sessions[s].pc.room;
    var room := st.rooms[r];
    var c := room.connections[room.lock.next];
    var st' := SetRoom(st, r, room.(lock := room.lock.(next := room.lock.next + 1)));
    if st.members[c].owner == s then st'
    else SetMember(st', c, st.members[c].(ch := Put(st.members[c].ch, room.lock.copy)))
  }

  /** Skipping expired entries changes nothing: every turn equals one that writes to all entries. */
  lemma SkippingExpiredChangesNothing(steps: seq<Step>, s: nat)
    requires Runs(Init, steps) && Enabled(Run(Init, steps), FanOne(s))
    ensures Next(Run(Init, steps), FanOne(s)) == FanOneToAll(Run(Init, steps), s)
  {
    ReachableInv(steps);
    var st := Run(Init, steps);
    var r := st.sessions[s].pc.room;
    var k := st.rooms[r].lock.next;
    var c := st.rooms[r].connections[k];
    MapsAgree(st, s, r, k);
    if Expired(st, c) {
      ExpiredIsClosed(st, c);
      assert st.members[c].(ch := Put(st.members[c].ch, st.rooms[r].lock.copy)) == st.members[c];
      assert st.members[c := st.members[c]] == st.members;
    }
  }
}
