/**
 With no new client input and no socket failure the server comes to rest, with any number of threads. No wake-up is
 lost if and only if no reader starts to wait on a channel that has something to do; with one thread none does. At
 rest an open subscriber has received everything it is owed, unless a reader on its way started to wait too late.
 */
module Drain {
  import opened ChannelModel
  import opened Pipeline
  import opened Membership
  import opened Delivery
  import Channels
  import opened Requests

  /** The steps the server takes on its own. */
  predicate Internal(step: Step) {
    !step.Accept? && !step.Receive? && !step.Hangup? && !step.WriteFail?
  }

  /**
   The others are up to the environment, at any time: a client may connect, an idle session may be sent any line or
   be hung up, and any send may succeed or fail.
   */
  lemma EnvironmentIsFree(st: State, s: nat, line: Line)
    ensures Enabled(st, Accept)
    ensures Has(st, s) && st.sessions[s].pc.Idle? ==> Enabled(st, Receive(s, line)) && Enabled(st, Hangup(s))
    ensures Has(st, s) && st.sessions[s].writer.Sending? ==> Enabled(st, WriteSend(s)) && Enabled(st, WriteFail(s))
  {
  }

  // ---------------------------------------------------------------------------
  // The measure
  // ---------------------------------------------------------------------------

  function SumOf<T>(f: T -> nat, xs: seq<T>): nat {
    if xs == [] then 0 else f(xs[0]) + SumOf(f, xs[1..])
  }

  lemma {:induction false} SumUpdate<T>(f: T -> nat, xs: seq<T>, i: nat, x: T)
    requires i < |xs|
    ensures SumOf(f, xs[i := x]) + f(xs[i]) == SumOf(f, xs) + f(x)
    decreases |xs|
  {
    if i == 0 {
      assert xs[i := x][1..] == xs[1..];
    } else {
      SumUpdate(f, xs[1..], i - 1, x);
      assert xs[i := x][1..] == xs[1..][i - 1 := x];
    }
  }

  /** How many of the steps that add a room, a channel or a fan-out are still ahead of a session. */
  function Ahead(se: Session): nat {
    match se.pc
    case Creating(_, _) => 3
    case Joining(_, _) => 2
    case Posting(_, _) => 1
    case _ => 0
  }

  /** What a reader still does before it waits. */
  function Awake(r: Reader): nat {
    match r
    case Polling => 2
    case Window => 1
    case _ => 0
  }

  function MemberCost(m: Member): nat {
    8 * |m.ch.queue| + Awake(m.ch.reader) +
    match m.pc
    case Unspawned => 5
    case Top => 4
    case Locked => 3
    case InHand(_) => 9
    case _ => 0
  }

  function PcCost(pc: SessionPc): nat {
    match pc
    case Pushed(_, _, _) => 7
    case Spawned(_, _, _) => 6
    case Answering(_) => 5
    case Rejecting(_) => 5
    case Fanning(_) => 1
    case Closing(todo) => 3 * |todo| + 3
    case _ => 0
  }

  function SessionCost(se: Session): nat {
    PcCost(se.pc) + 2 * |se.out.queue| + Awake(se.out.reader) + (if se.writer.Sending? then 3 else 0)
  }

  function RoomCost(room: Room): nat {
    if room.lock.Fan? && room.lock.next <= |room.connections| then 11 * (|room.connections| - room.lock.next) else 0
  }

  function Major(st: State): nat {
    SumOf(Ahead, st.sessions)
  }

  function Minor(st: State): nat {
    SumOf(MemberCost, st.members) + SumOf(SessionCost, st.sessions) + SumOf(RoomCost, st.rooms)
  }

  predicate Shrinks(st: State, st': State) {
    Major(st') < Major(st) || (Major(st') == Major(st) && Minor(st') < Minor(st))
  }

  lemma SessionShrinks(st: State, s: nat, se: Session)
    requires Has(st, s)
    ensures var st' := SetSession(st, s, se);
      Major(st') + Ahead(st.sessions[s]) == Major(st) + Ahead(se) &&
      Minor(st') + SessionCost(st.sessions[s]) == Minor(st) + SessionCost(se)
  {
    SumUpdate(Ahead, st.sessions, s, se);
    SumUpdate(SessionCost, st.sessions, s, se);
  }

  lemma MemberShrinks(st: State, c: nat, m: Member)
    requires c < |st.members|
    ensures var st' := SetMember(st, c, m);
      Major(st') == Major(st) && Minor(st') + MemberCost(st.members[c]) == Minor(st) + MemberCost(m)
  {
    SumUpdate(MemberCost, st.members, c, m);
  }

  lemma RoomShrinks(st: State, r: nat, room: Room)
    requires r < |st.rooms|
    ensures var st' := SetRoom(st, r, room);
      Major(st') == Major(st) && Minor(st') + RoomCost(st.rooms[r]) == Minor(st) + RoomCost(room)
  {
    SumUpdate(RoomCost, st.rooms, r, room);
  }

  lemma SessionStepShrinks(st: State, step: Step)
    requires Enabled(st, step) && (step.Emplace? || step.Respond? || step.Finish?)
    ensures Shrinks(st, Next(st, step))
  {
    SessionShrinks(st, step.s, Next(st, step).sessions[step.s]);
  }

  lemma WritePollShrinks(st: State, s: nat, atomic: bool)
    requires Enabled(st, WritePoll(s, atomic))
    ensures Shrinks(st, DoWritePoll(st, s, atomic))
  {
    SessionShrinks(st, s, DoWritePoll(st, s, atomic).sessions[s]);
  }

  lemma WriteSendShrinks(st: State, s: nat)
    requires Enabled(st, WriteSend(s)) && SessionOk(st, s)
    ensures Shrinks(st, Next(st, WriteSend(s)))
  {
    var se := st.sessions[s];
    SessionShrinks(st, s, se.(writer := Fetching, out := Begin(se.out), sent := se.sent + [se.writer.frame]));
  }

  lemma WriteParkShrinks(st: State, s: nat)
    requires Enabled(st, WritePark(s))
    ensures Shrinks(st, Next(st, WritePark(s)))
  {
    var se := st.sessions[s];
    SessionShrinks(st, s, se.(out := Park(se.out)));
  }

  lemma ListenPollShrinks(st: State, c: nat, atomic: bool)
    requires Enabled(st, ListenPoll(c, atomic))
    ensures Shrinks(st, DoListenPoll(st, c, atomic))
  {
    MemberShrinks(st, c, DoListenPoll(st, c, atomic).members[c]);
  }

  lemma ListenStepShrinks(st: State, step: Step)
    requires Enabled(st, step) && (step.ListenTop? || step.ListenCheck? || step.ListenPark?)
    requires MemberOk(st, step.c)
    ensures Shrinks(st, Next(st, step))
  {
    MemberShrinks(st, step.c, Next(st, step).members[step.c]);
  }

  /** A forwarded message costs less in the write channel than in the listener's hand. */
  lemma EmitCost(se: Session, f: Frame)
    ensures SessionCost(Emit(se, f)) <= SessionCost(se) + 4 && Ahead(Emit(se, f)) == Ahead(se)
  {
  }

  lemma ForwardShrinks(st: State, c: nat)
    requires Enabled(st, ListenForward(c))
    ensures Shrinks(st, DoListenForward(st, c))
  {
    var m := st.members[c];
    var st1 := SetMember(st, c, m.(pc := Top));
    var frame := Forward(c, m.pc.copy.at, Relay(m.pc.copy.text, st.rooms[m.room].name));
    MemberShrinks(st, c, m.(pc := Top));
    EmitCost(st.sessions[m.owner], frame);
    SessionShrinks(st1, m.owner, Emit(st.sessions[m.owner], frame));
    assert DoListenForward(st, c) == SetSession(st1, m.owner, Emit(st.sessions[m.owner], frame));
  }

  /** A new room, a new channel and a new fan-out lower the major count. */
  lemma GrowthShrinks(st: State, step: Step)
    requires Enabled(st, step) && (step.CreateRoom? || step.Push? || step.Acquire?)
    ensures Shrinks(st, Next(st, step))
  {
    SumUpdate(Ahead, st.sessions, step.s, Next(st, step).sessions[step.s]);
  }

  lemma SpawnShrinks(st: State, s: nat)
    requires Inv(st) && Enabled(st, Spawn(s))
    ensures Shrinks(st, DoSpawn(st, s))
  {
    var pc := st.sessions[s].pc;
    assert SessionOk(st, s) && MemberOk(st, pc.chan);
    var m := st.members[pc.chan].(pc := Top);
    MemberShrinks(st, pc.chan, m);
    SessionShrinks(SetMember(st, pc.chan, m), s, DoSpawn(st, s).sessions[s]);
  }

  lemma FanOneShrinks(st: State, s: nat)
    requires Inv(st) && Enabled(st, FanOne(s))
    ensures Shrinks(st, DoFanOne(st, s))
  {
    var r := st.sessions[s].pc.room;
    var room := st.rooms[r];
    var c := room.connections[room.lock.next];
    RoomShrinks(st, r, room.(lock := room.lock.(next := room.lock.next + 1)));
    var st1 := SetRoom(st, r, room.(lock := room.lock.(next := room.lock.next + 1)));
    if DoFanOne(st, s) != st1 {
      MemberShrinks(st1, c, st.members[c].(ch := Put(st.members[c].ch, room.lock.copy)));
    }
  }

  lemma ReleaseShrinks(st: State, step: Step)
    requires Inv(st) && Enabled(st, step) && (step.Unlock? || step.Reject?)
    ensures Shrinks(st, Next(st, step))
  {
    var s := step.s;
    var r := st.sessions[s].pc.room;
    var room := st.rooms[r].(lock := Free);
    RoomShrinks(st, r, room);
    SessionShrinks(SetRoom(st, r, room), s, Next(st, step).sessions[s]);
  }

  lemma CloseOneShrinks(st: State, s: nat, r: nat)
    requires Enabled(st, CloseOne(s, r))
    ensures Shrinks(st, DoCloseOne(st, s, r))
  {
    var c := st.sessions[s].subs[r];
    var m := st.members[c].(ch := Shut(st.members[c].ch));
    MemberShrinks(st, c, m);
    SessionShrinks(SetMember(st, c, m), s, DoCloseOne(st, s, r).sessions[s]);
  }

  /** Every step the server takes on its own lowers the measure. */
  lemma StepShrinks(st: State, step: Step)
    requires Inv(st) && Enabled(st, step) && Internal(step)
    ensures Shrinks(st, Next(st, step))
  {
    match step
    case CreateRoom(_) => GrowthShrinks(st, step);
    case Push(_) => GrowthShrinks(st, step);
    case Acquire(_) => GrowthShrinks(st, step);
    case Spawn(s) => SpawnShrinks(st, s);
    case FanOne(s) => FanOneShrinks(st, s);
    case Unlock(_) => ReleaseShrinks(st, step);
    case Reject(_) => ReleaseShrinks(st, step);
    case CloseOne(s, r) => CloseOneShrinks(st, s, r);
    case ListenTop(c) => assert MemberOk(st, c); ListenStepShrinks(st, step);
    case ListenCheck(c) => assert MemberOk(st, c); ListenStepShrinks(st, step);
    case ListenPoll(c, atomic) => ListenPollShrinks(st, c, atomic);
    case ListenPark(c) => assert MemberOk(st, c); ListenStepShrinks(st, step);
    case ListenForward(c) => ForwardShrinks(st, c);
    case WritePoll(s, atomic) => WritePollShrinks(st, s, atomic);
    case WritePark(s) => WriteParkShrinks(st, s);
    case WriteSend(s) => assert SessionOk(st, s); WriteSendShrinks(st, s);
    case _ => SessionStepShrinks(st, step);
  }

  // ---------------------------------------------------------------------------
  // How listeners and writers end
  // ---------------------------------------------------------------------------

  /** A listener gives up only on a closed channel, a writer whose sends succeed only on a closed and empty one. */
  predicate EndsClosed(st: State) {
    && (forall c :: 0 <= c < |st.members| && st.members[c].pc.Exited? ==> st.members[c].ch.closed)
    && (forall s :: 0 <= s < |st.sessions| && st.sessions[s].writer == Stopped([]) ==>
          st.sessions[s].out.closed && st.sessions[s].out.queue == [])
  }

  lemma ExitMeansClosed(st: State, step: Step, c: nat)
    requires Inv(st) && EndsClosed(st) && Enabled(st, step) && c < |Next(st, step).members|
    requires Next(st, step).members[c].pc.Exited?
    ensures Next(st, step).members[c].ch.closed
  {
    if step == ListenTop(c) && Expired(st, c) {
      ExpiredIsClosed(st, c);
    }
  }

  lemma StopMeansClosed(st: State, step: Step, s: nat)
    requires EndsClosed(st) && Enabled(st, step) && s < |Next(st, step).sessions|
    requires Next(st, step).sessions[s].writer == Stopped([])
    ensures Next(st, step).sessions[s].out.closed && Next(st, step).sessions[s].out.queue == []
  {
  }

  lemma StepEndsClosed(st: State, step: Step)
    requires Inv(st) && EndsClosed(st) && Enabled(st, step)
    ensures EndsClosed(Next(st, step))
  {
    var st' := Next(st, step);
    forall c | 0 <= c < |st'.members| && st'.members[c].pc.Exited? ensures st'.members[c].ch.closed {
      ExitMeansClosed(st, step, c);
    }
    forall s | 0 <= s < |st'.sessions| && st'.sessions[s].writer == Stopped([])
      ensures st'.sessions[s].out.closed && st'.sessions[s].out.queue == []
    {
      StopMeansClosed(st, step, s);
    }
  }

  lemma {:induction false} ReachableEndsClosed(steps: seq<Step>)
    requires Runs(Init, steps)
    ensures EndsClosed(Run(Init, steps))
    decreases |steps|
  {
    if steps != [] {
      var before := steps[..|steps| - 1];
      ReachableEndsClosed(before);
      ReachableInv(before);
      StepEndsClosed(Run(Init, before), steps[|steps| - 1]);
    }
  }

  // ---------------------------------------------------------------------------
  // Lost wake-ups
  // ---------------------------------------------------------------------------

  /**
   A reader starts to wait although its channel has something to do: another thread has moved between the check
   and the wait.
   */
  predicate Disturbed(st: State, step: Step) {
    match step
    case ListenPark(c) => c < |st.members| && (st.members[c].ch.queue != [] || st.members[c].ch.closed)
    case WritePark(s) => s < |st.sessions| && (st.sessions[s].out.queue != [] || st.sessions[s].out.closed)
    case _ => false
  }

  /** No reader waits with something to do and nobody to resume it. */
  ghost predicate NothingLost(st: State) {
    && (forall c :: 0 <= c < |st.members| ==> !Channels.Lost(st.members[c].ch))
    && (forall s :: 0 <= s < |st.sessions| ==> !Channels.Lost(st.sessions[s].out))
  }

  lemma ListenerLosesIff(st: State, step: Step, c: nat)
    requires Enabled(st, step) && c < |Next(st, step).members|
    requires c < |st.members| ==> MemberOk(st, c) && !Channels.Lost(st.members[c].ch)
    ensures Channels.Lost(Next(st, step).members[c].ch) <==> step == ListenPark(c) && Disturbed(st, step)
  {
  }

  lemma WriterLosesIff(st: State, step: Step, s: nat)
    requires Enabled(st, step) && s < |Next(st, step).sessions|
    requires s < |st.sessions| ==> SessionOk(st, s) && !Channels.Lost(st.sessions[s].out)
    ensures Channels.Lost(Next(st, step).sessions[s].out) <==> step == WritePark(s) && Disturbed(st, step)
  {
  }

  /** A step loses a wake-up if and only if it is a disturbed wait. */
  lemma StepLosesIff(st: State, step: Step)
    requires Inv(st) && NothingLost(st) && Enabled(st, step)
    ensures NothingLost(Next(st, step)) <==> !Disturbed(st, step)
  {
    var st' := Next(st, step);
    forall c | 0 <= c < |st'.members|
      ensures Channels.Lost(st'.members[c].ch) <==> step == ListenPark(c) && Disturbed(st, step)
    {
      assert c < |st.members| ==> MemberOk(st, c);
      ListenerLosesIff(st, step, c);
    }
    forall s | 0 <= s < |st'.sessions|
      ensures Channels.Lost(st'.sessions[s].out) <==> step == WritePark(s) && Disturbed(st, step)
    {
      assert s < |st.sessions| ==> SessionOk(st, s);
      WriterLosesIff(st, step, s);
    }
    if Disturbed(st, step) {
      match step
      case ListenPark(c) => assert Channels.Lost(st'.members[c].ch);
      case WritePark(s) => assert Channels.Lost(st'.sessions[s].out);
    }
  }

  /** No wait of the schedule is disturbed. */
  ghost predicate NoneDisturbed(steps: seq<Step>)
    requires Runs(Init, steps)
    decreases |steps|
  {
    steps == [] ||
    (NoneDisturbed(steps[..|steps| - 1]) && !Disturbed(Run(Init, steps[..|steps| - 1]), steps[|steps| - 1]))
  }

  /** At no moment of the schedule is a wake-up lost. */
  ghost predicate NeverLost(steps: seq<Step>)
    requires Runs(Init, steps)
    decreases |steps|
  {
    NothingLost(Run(Init, steps)) && (steps == [] || NeverLost(steps[..|steps| - 1]))
  }

  /** With any number of threads: no wake-up is lost, at any moment, if and only if no wait is disturbed. */
  lemma {:induction false} NeverLostIffNoneDisturbed(steps: seq<Step>)
    requires Runs(Init, steps)
    ensures NeverLost(steps) <==> NoneDisturbed(steps)
    decreases |steps|
  {
    if steps != [] {
      var before := steps[..|steps| - 1];
      NeverLostIffNoneDisturbed(before);
      ReachableInv(before);
      if NeverLost(before) {
        assert NothingLost(Run(Init, before));
        StepLosesIff(Run(Init, before), steps[|steps| - 1]);
      }
    }
  }

  ghost predicate OneThread(steps: seq<Step>) {
    forall i :: 0 <= i < |steps| ==> SingleThreaded(steps[i])
  }

  /** One thread disturbs no wait: it separates no check from its wait. */
  lemma {:induction false} OneThreadDisturbsNone(steps: seq<Step>)
    requires Runs(Init, steps) && OneThread(steps)
    ensures NoneDisturbed(steps)
    decreases |steps|
  {
    if steps != [] {
      OneThreadDisturbsNone(steps[..|steps| - 1]);
      assert SingleThreaded(steps[|steps| - 1]);
    }
  }

  // ---------------------------------------------------------------------------
  // Which wait was the last
  // ---------------------------------------------------------------------------

  /** When the listener of channel `c` last started to wait, its channel held something. */
  predicate ListenerWaitedLate(steps: seq<Step>, c: nat)
    requires Runs(Init, steps)
    decreases |steps|
  {
    steps != [] &&
    var before, last := steps[..|steps| - 1], steps[|steps| - 1];
    var st := Run(Init, before);
    if last == ListenPark(c) then st.members[c].ch.queue != []
    else if last == ListenPoll(c, true) && Look(st.members[c].ch).Empty? then false
    else ListenerWaitedLate(before, c)
  }

  /** When the writer of session `s` last started to wait, its channel held something for channel `c`. */
  predicate WriterWaitedLate(steps: seq<Step>, s: nat, c: nat)
    requires Runs(Init, steps)
    decreases |steps|
  {
    steps != [] &&
    var before, last := steps[..|steps| - 1], steps[|steps| - 1];
    var st := Run(Init, before);
    if last == WritePark(s) then Forwarded(st.sessions[s].out.queue, c) != []
    else if last == WritePoll(s, true) && Look(st.sessions[s].out).Empty? then false
    else WriterWaitedLate(before, s, c)
  }

  /** Whatever comes to a channel resumes its reader: while the reader waits the queue stays as it was. */
  lemma ListenerWaitsOn(st: State, step: Step, c: nat)
    requires Enabled(st, step) && c < |Next(st, step).members| && Next(st, step).members[c].ch.reader.Parked?
    requires c < |st.members| ==> MemberOk(st, c)
    requires step != ListenPark(c) && !(step == ListenPoll(c, true) && Look(st.members[c].ch).Empty?)
    ensures c < |st.members| && st.members[c].ch.reader.Parked?
    ensures Next(st, step).members[c].ch.queue == st.members[c].ch.queue
  {
  }

  lemma WriterWaitsOn(st: State, step: Step, s: nat)
    requires Enabled(st, step) && s < |Next(st, step).sessions| && Next(st, step).sessions[s].out.reader.Parked?
    requires s < |st.sessions| ==> SessionOk(st, s)
    requires step != WritePark(s) && !(step == WritePoll(s, true) && Look(st.sessions[s].out).Empty?)
    ensures s < |st.sessions| && st.sessions[s].out.reader.Parked?
    ensures Next(st, step).sessions[s].out.queue == st.sessions[s].out.queue
  {
  }

  lemma {:induction false} ListenerHolds(steps: seq<Step>, c: nat)
    requires Runs(Init, steps) && c < |Run(Init, steps).members| && Run(Init, steps).members[c].ch.reader.Parked?
    ensures Run(Init, steps).members[c].ch.queue != [] <==> ListenerWaitedLate(steps, c)
    decreases |steps|
  {
    var before, last := steps[..|steps| - 1], steps[|steps| - 1];
    var st := Run(Init, before);
    ReachableInv(before);
    if last != ListenPark(c) && !(last == ListenPoll(c, true) && Look(st.members[c].ch).Empty?) {
      assert c < |st.members| ==> MemberOk(st, c);
      ListenerWaitsOn(st, last, c);
      ListenerHolds(before, c);
    }
  }

  lemma {:induction false} WriterHolds(steps: seq<Step>, s: nat, c: nat)
    requires Runs(Init, steps) && Has(Run(Init, steps), s) && Run(Init, steps).sessions[s].out.reader.Parked?
    ensures Forwarded(Run(Init, steps).sessions[s].out.queue, c) != [] <==> WriterWaitedLate(steps, s, c)
    decreases |steps|
  {
    var before, last := steps[..|steps| - 1], steps[|steps| - 1];
    var st := Run(Init, before);
    ReachableInv(before);
    if last == WritePoll(s, true) && Look(st.sessions[s].out).Empty? {
      assert Forwarded([], c) == [];
    } else if last != WritePark(s) {
      assert s < |st.sessions| ==> SessionOk(st, s);
      WriterWaitsOn(st, last, s);
      WriterHolds(before, s, c);
    }
  }

  // ---------------------------------------------------------------------------
  // At rest
  // ---------------------------------------------------------------------------

  /** None of the server's own steps can be taken. */
  ghost predicate AtRest(st: State) {
    forall step :: Internal(step) ==> !Enabled(st, step)
  }

  /** Whoever holds a room mutex can go on: nothing is awaited inside the critical section. */
  lemma HolderCanMove(st: State, r: nat) returns (step: Step)
    requires Inv(st) && r < |st.rooms| && !st.rooms[r].lock.Free?
    ensures Internal(step) && Enabled(st, step)
    ensures step == Reject(st.rooms[r].lock.holder) || step == Unlock(st.rooms[r].lock.holder) ||
            step == FanOne(st.rooms[r].lock.holder)
  {
    assert RoomOk(st, r);
    var room := st.rooms[r];
    assert SessionOk(st, room.lock.holder);
    if room.lock.Held? {
      step := Reject(room.lock.holder);
    } else if room.lock.next == |room.connections| {
      step := Unlock(room.lock.holder);
    } else {
      assert MemberOk(st, room.connections[room.lock.next]);
      step := FanOne(room.lock.holder);
    }
  }

  /** A session in the middle of a request can go on, or waits for a mutex whose holder can. */
  lemma RequestCanMove(st: State, s: nat) returns (step: Step)
    requires Inv(st) && Has(st, s) && !st.sessions[s].pc.Idle? && !st.sessions[s].pc.Done?
    ensures Internal(step) && Enabled(st, step)
  {
    assert SessionOk(st, s);
    match st.sessions[s].pc
    case Creating(_, _) => step := CreateRoom(s);
    case Joining(r, _) => if st.rooms[r].lock.Free? { step := Push(s); } else { step := HolderCanMove(st, r); }
    case Pushed(_, _, _) => step := Spawn(s);
    case Spawned(_, _, _) => step := Emplace(s);
    case Answering(_) => step := Respond(s);
    case Posting(r, _) => if st.rooms[r].lock.Free? { step := Acquire(s); } else { step := HolderCanMove(st, r); }
    case Fanning(r) => step := HolderCanMove(st, r);
    case Rejecting(r) => step := HolderCanMove(st, r);
    case Closing(todo) =>
      if r :| r in todo {
        assert Owns(st, s, r, st.sessions[s].subs[r]);
        step := CloseOne(s, r);
      } else {
        step := Finish(s);
      }
  }

  /** At rest no session is in the middle of a request, and no mutex is held. */
  lemma RestIsIdle(st: State, s: nat)
    requires Inv(st) && AtRest(st) && Has(st, s)
    ensures st.sessions[s].pc.Idle? || st.sessions[s].pc.Done?
  {
    if !st.sessions[s].pc.Idle? && !st.sessions[s].pc.Done? {
      var step := RequestCanMove(st, s);
    }
  }

  lemma RestIsUnlocked(st: State, r: nat)
    requires Inv(st) && AtRest(st) && r < |st.rooms|
    ensures st.rooms[r].lock.Free?
  {
    if !st.rooms[r].lock.Free? {
      var step := HolderCanMove(st, r);
    }
  }

  /** At rest the listener of an open channel waits. */
  lemma RestIsListened(st: State, c: nat)
    requires Inv(st) && EndsClosed(st) && AtRest(st) && c < |st.members| && !st.members[c].ch.closed
    ensures st.members[c].pc.Reading? && st.members[c].ch.reader.Parked?
  {
    assert MemberOk(st, c);
    RestIsIdle(st, st.members[c].owner);
    assert Internal(ListenTop(c)) && Internal(ListenCheck(c)) && Internal(ListenForward(c));
    assert Internal(ListenPoll(c, true)) && Internal(ListenPark(c));
  }

  /** At rest a writer that has not ended waits. */
  lemma RestIsWritten(st: State, s: nat)
    requires Inv(st) && AtRest(st) && Has(st, s) && !st.sessions[s].writer.Stopped?
    ensures st.sessions[s].writer.Fetching? && st.sessions[s].out.reader.Parked?
  {
    assert SessionOk(st, s);
    assert Internal(WriteSend(s)) && Internal(WritePoll(s, true)) && Internal(WritePark(s));
  }

  /** An open subscription of a session whose writer is at work. */
  predicate Live(st: State, c: nat) {
    IsMember(st, c) && !st.members[c].ch.closed && !st.sessions[st.members[c].owner].writer.Stopped?
  }

  /** Every live subscriber has received the whole of what it is owed. */
  predicate Delivered(st: State) {
    forall c :: 0 <= c < |st.members| && Live(st, c) ==> Received(st, c) == Owed(st, c)
  }

  /** Every frame a session's write channel ever accepted was sent, if no send failed. */
  predicate AllSent(st: State) {
    forall s :: 0 <= s < |st.sessions| && (st.sessions[s].writer.Stopped? ==> st.sessions[s].writer.lost == []) ==>
                  st.sessions[s].sent == st.sessions[s].accepted
  }

  /** Every coroutine of a session that has ended has ended, too, and nobody holds its channels. */
  predicate AllEnded(st: State) {
    && (forall s :: 0 <= s < |st.sessions| ==> !st.sessions[s].pc.Closing?)
    && (forall s :: 0 <= s < |st.sessions| && st.sessions[s].pc.Done? ==> st.sessions[s].writer.Stopped?)
    && (forall c :: 0 <= c < |st.members| && st.members[c].ch.closed ==> st.members[c].pc.Exited?)
    && (forall c :: 0 <= c < |st.members| && IsMember(st, c) && st.sessions[st.members[c].owner].pc.Done? ==>
          Expired(st, c))
  }

  lemma RestIsEnded(st: State, c: nat)
    requires Inv(st) && NothingLost(st) && AtRest(st) && c < |st.members| && st.members[c].ch.closed
    ensures st.members[c].pc.Exited?
  {
    assert MemberOk(st, c);
    RestIsIdle(st, st.members[c].owner);
    assert Internal(ListenTop(c)) && Internal(ListenCheck(c)) && Internal(ListenForward(c));
    assert Internal(ListenPoll(c, true)) && Internal(ListenPark(c));
  }

  lemma RestIsStopped(st: State, s: nat)
    requires Inv(st) && NothingLost(st) && AtRest(st) && Has(st, s)
    ensures !st.sessions[s].pc.Closing?
    ensures st.sessions[s].pc.Done? ==> st.sessions[s].writer.Stopped?
  {
    RestIsIdle(st, s);
    if !st.sessions[s].writer.Stopped? {
      RestIsWritten(st, s);
      assert SessionOk(st, s);
    }
  }

  /** At rest, what a live subscriber has not received is in its channel or in the write channel. */
  lemma RestIsQueued(st: State, c: nat)
    requires Good(st) && EndsClosed(st) && AtRest(st) && c < |st.members| && Live(st, c)
    ensures var se := st.sessions[st.members[c].owner];
      st.members[c].ch.reader.Parked? && se.out.reader.Parked? &&
      (Received(st, c) == Owed(st, c) <==> st.members[c].ch.queue == [] && Forwarded(se.out.queue, c) == [])
  {
    RestIsUnlocked(st, st.members[c].room);
    RestIsListened(st, c);
    RestIsWritten(st, st.members[c].owner);
    ConservationAt(st, c);
    var ch, out := st.members[c].ch, st.sessions[st.members[c].owner].out;
    assert InTransit(st, c) == Forwarded(out.queue, c) + ch.queue;
    assert Received(st, c) + (Forwarded(out.queue, c) + ch.queue) == Owed(st, c);
    assert |Owed(st, c)| == |Received(st, c)| + |Forwarded(out.queue, c)| + |ch.queue|;
  }

  /** If no wake-up is lost, rest means that all is delivered and sent. */
  lemma RestIsComplete(st: State)
    requires Good(st) && EndsClosed(st) && NothingLost(st) && AtRest(st)
    ensures Delivered(st) && AllSent(st) && AllEnded(st)
  {
    forall c | 0 <= c < |st.members| && st.members[c].ch.closed ensures st.members[c].pc.Exited? {
      RestIsEnded(st, c);
    }
    forall c | 0 <= c < |st.members| && IsMember(st, c) && st.sessions[st.members[c].owner].pc.Done?
      ensures Expired(st, c)
    {
      assert MemberOk(st, c);
      RestIsEnded(st, c);
    }
    forall s | 0 <= s < |st.sessions|
      ensures !st.sessions[s].pc.Closing? && (st.sessions[s].pc.Done? ==> st.sessions[s].writer.Stopped?)
    {
      RestIsStopped(st, s);
    }
    forall c | 0 <= c < |st.members| && Live(st, c) ensures Received(st, c) == Owed(st, c) {
      RestIsQueued(st, c);
      assert Forwarded([], c) == [];
    }
    forall s | 0 <= s < |st.sessions| && (st.sessions[s].writer.Stopped? ==> st.sessions[s].writer.lost == [])
      ensures st.sessions[s].sent == st.sessions[s].accepted
    {
      RestIsSent(st, s);
    }
  }

  lemma RestIsSent(st: State, s: nat)
    requires Good(st) && EndsClosed(st) && NothingLost(st) && AtRest(st) && Has(st, s)
    requires st.sessions[s].writer.Stopped? ==> st.sessions[s].writer.lost == []
    ensures st.sessions[s].sent == st.sessions[s].accepted
  {
    assert SessionBooks(st, s);
    if !st.sessions[s].writer.Stopped? {
      RestIsWritten(st, s);
    }
  }

  /** On the way from channel `c` to the socket, the last wait of the listener or of the writer began too late. */
  predicate HeldBack(steps: seq<Step>, c: nat)
    requires Runs(Init, steps) && c < |Run(Init, steps).members|
  {
    ListenerWaitedLate(steps, c) || WriterWaitedLate(steps, Run(Init, steps).members[c].owner, c)
  }

  /** What a schedule that has come to rest has achieved. */
  ghost predicate Drained(steps: seq<Step>)
    requires Runs(Init, steps)
  {
    var st := Run(Init, steps);
    && AtRest(st)
    && (NoneDisturbed(steps) ==> Delivered(st) && AllSent(st) && AllEnded(st))
    && forall c :: 0 <= c < |st.members| && Live(st, c) ==> (Received(st, c) == Owed(st, c) <==> !HeldBack(steps, c))
  }

  /**
   The drain is complete. Whenever the server has come to rest after a schedule without a disturbed wait, each live
   subscriber has received everything, all writers have sent all, and ended sessions have left nothing running.
   After any schedule a live subscriber has received everything if and only if the last waits on its way did not
   begin too late.
   */
  lemma DrainIsComplete(steps: seq<Step>)
    requires Runs(Init, steps) && AtRest(Run(Init, steps))
    ensures Drained(steps)
  {
    var st := Run(Init, steps);
    Reachable(steps);
    ReachableEndsClosed(steps);
    NeverLostIffNoneDisturbed(steps);
    if NoneDisturbed(steps) {
      RestIsComplete(st);
    }
    forall c | 0 <= c < |st.members| && Live(st, c)
      ensures Received(st, c) == Owed(st, c) <==> !HeldBack(steps, c)
    {
      RestIsQueued(st, c);
      ListenerHolds(steps, c);
      WriterHolds(steps, st.members[c].owner, c);
    }
  }

  // ---------------------------------------------------------------------------
  // One thread
  // ---------------------------------------------------------------------------

  /** None of the steps that one thread can take is left. */
  ghost predicate AtRestAlone(st: State) {
    forall step :: Internal(step) && SingleThreaded(step) ==> !Enabled(st, step)
  }

  /** No reader is between its check and its wait. */
  predicate NoWindow(st: State) {
    && (forall c :: 0 <= c < |st.members| ==> !st.members[c].ch.reader.Window?)
    && (forall s :: 0 <= s < |st.sessions| ==> !st.sessions[s].out.reader.Window?)
  }

  lemma ListenerOpensNoWindow(st: State, step: Step, c: nat)
    requires Enabled(st, step) && SingleThreaded(step) && c < |Next(st, step).members|
    requires c < |st.members| ==> !st.members[c].ch.reader.Window?
    ensures !Next(st, step).members[c].ch.reader.Window?
  {
  }

  lemma WriterOpensNoWindow(st: State, step: Step, s: nat)
    requires Enabled(st, step) && SingleThreaded(step) && s < |Next(st, step).sessions|
    requires s < |st.sessions| ==> !st.sessions[s].out.reader.Window?
    ensures !Next(st, step).sessions[s].out.reader.Window?
  {
  }

  lemma StepOpensNoWindow(st: State, step: Step)
    requires NoWindow(st) && Enabled(st, step) && SingleThreaded(step)
    ensures NoWindow(Next(st, step))
  {
    forall c | 0 <= c < |Next(st, step).members| ensures !Next(st, step).members[c].ch.reader.Window? {
      ListenerOpensNoWindow(st, step, c);
    }
    forall s | 0 <= s < |Next(st, step).sessions| ensures !Next(st, step).sessions[s].out.reader.Window? {
      WriterOpensNoWindow(st, step, s);
    }
  }

  lemma {:induction false} OneThreadHasNoWindow(steps: seq<Step>)
    requires Runs(Init, steps) && OneThread(steps)
    ensures NoWindow(Run(Init, steps))
    decreases |steps|
  {
    if steps != [] {
      OneThreadHasNoWindow(steps[..|steps| - 1]);
      StepOpensNoWindow(Run(Init, steps[..|steps| - 1]), steps[|steps| - 1]);
    }
  }

  lemma RestAloneIsRest(st: State)
    requires NoWindow(st) && AtRestAlone(st)
    ensures AtRest(st)
  {
    forall step | Internal(step) ensures !Enabled(st, step) {
      match step
      case ListenPoll(c, _) => assert Enabled(st, step) ==> Enabled(st, ListenPoll(c, true));
      case WritePoll(s, _) => assert Enabled(st, step) ==> Enabled(st, WritePoll(s, true));
      case _ =>
    }
  }

  /** With one thread: rest is rest, and then everything is delivered and sent. */
  lemma OneThreadDelivers(steps: seq<Step>)
    requires Runs(Init, steps) && OneThread(steps) && AtRestAlone(Run(Init, steps))
    ensures AtRest(Run(Init, steps))
    ensures Delivered(Run(Init, steps)) && AllSent(Run(Init, steps)) && AllEnded(Run(Init, steps))
  {
    OneThreadHasNoWindow(steps);
    RestAloneIsRest(Run(Init, steps));
    OneThreadDisturbsNone(steps);
    DrainIsComplete(steps);
  }

  // ---------------------------------------------------------------------------
  // Coming to rest
  // ---------------------------------------------------------------------------

  /** Nothing is left to do for any number of threads, or for a thread that is alone. */
  ghost predicate Rests(st: State, alone: bool) {
    if alone then AtRestAlone(st) else AtRest(st)
  }

  /**
   A schedule of the server's own steps that does not idle: at each moment it takes one of them, in
   whatever order, unless there is none. If a thread is alone, they are steps that one thread can take.
   */
  ghost predicate Schedule(sigma: nat -> State, choice: nat -> Step, alone: bool) {
    forall n: nat :: Rests(sigma(n), alone) ||
      (Internal(choice(n)) && (alone ==> SingleThreaded(choice(n))) &&
       Enabled(sigma(n), choice(n)) && sigma(n + 1) == Next(sigma(n), choice(n)))
  }

  /** `steps` and the first `n` choices. */
  function Followed(steps: seq<Step>, choice: nat -> Step, n: nat): seq<Step> {
    if n == 0 then steps else Followed(steps, choice, n - 1) + [choice(n - 1)]
  }

  ghost predicate Leads(steps: seq<Step>, st: State, alone: bool) {
    Runs(Init, steps) && Run(Init, steps) == st && (alone ==> OneThread(steps))
  }

  lemma {:induction false} RestsFrom(steps: seq<Step>, sigma: nat -> State, choice: nat -> Step, n: nat, alone: bool)
    requires Schedule(sigma, choice, alone) && Leads(Followed(steps, choice, n), sigma(n), alone)
    ensures exists k: nat :: Leads(Followed(steps, choice, k), sigma(k), alone) && Rests(sigma(k), alone)
    decreases Major(sigma(n)), Minor(sigma(n))
  {
    if !Rests(sigma(n), alone) {
      var taken := Followed(steps, choice, n);
      ReachableInv(taken);
      StepShrinks(sigma(n), choice(n));
      assert (taken + [choice(n)])[..|taken|] == taken;
      RestsFrom(steps, sigma, choice, n + 1, alone);
    }
  }

  /**
   The drain terminates, with any number of threads: from every reachable state, every schedule of listener,
   writer and session steps comes to rest, and the whole schedule up to there is drained. With one thread
   everything is then delivered and sent.
   */
  lemma DrainTerminates(steps: seq<Step>, sigma: nat -> State, choice: nat -> Step, alone: bool)
    requires Leads(steps, sigma(0), alone) && Schedule(sigma, choice, alone)
    ensures exists k: nat ::
      Leads(Followed(steps, choice, k), sigma(k), alone) && Drained(Followed(steps, choice, k)) &&
      (alone ==> Delivered(sigma(k)) && AllSent(sigma(k)) && AllEnded(sigma(k)))
  {
    assert Followed(steps, choice, 0) == steps;
    RestsFrom(steps, sigma, choice, 0, alone);
    var k: nat :| Leads(Followed(steps, choice, k), sigma(k), alone) && Rests(sigma(k), alone);
    if alone {
      OneThreadDelivers(Followed(steps, choice, k));
    }
    DrainIsComplete(Followed(steps, choice, k));
  }
}
