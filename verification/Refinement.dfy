/**
 The interleaved fan-out simulates the atomic broadcast. The broadcast takes effect when the sender
 obtains the room mutex; a subscriber the loop has not reached yet is seen as already holding the
 message.
 */
module Refinement {
  import opened ChannelModel
  import opened Pipeline
  import opened Membership
  import opened AtomicBroadcast

  /** The message a running fan-out still owes to channel `m`. */
  function Pending(m: Member, lock: Lock): seq<Copy> {
    match lock
    case Fan(p, copy, next) =>
      if next <= m.slot && m.owner != p && !m.ch.closed then [copy] else []
    case _ => []
  }

  function Abstract(m: Member, lock: Lock): Subscriber {
    Subscriber(m.owner, m.room, m.joined, m.ch.queue + Pending(m, lock), !m.ch.closed, m.taken)
  }

  function LockOf(st: State, r: nat): Lock {
    if r < |st.rooms| then st.rooms[r].lock else Free
  }

  /** The rooms whose mutex is held by a fan-out. */
  function Busy(st: State): set<nat> {
    set r | 0 <= r < |st.rooms| && st.rooms[r].lock.Fan?
  }

  function View(st: State): (h: Hub)
    ensures |h.logs| == |st.rooms| && |h.subscribers| == |st.members| && h.busy == Busy(st)
    ensures forall r :: 0 <= r < |st.rooms| ==> h.logs[r] == st.rooms[r].log
    ensures forall c :: 0 <= c < |st.members| ==>
      h.subscribers[c] == Abstract(st.members[c], LockOf(st, st.members[c].room))
  {
    Hub(seq(|st.rooms|, r requires 0 <= r < |st.rooms| => st.rooms[r].log),
        Busy(st),
        seq(|st.members|, c requires 0 <= c < |st.members| =>
          Abstract(st.members[c], LockOf(st, st.members[c].room))))
  }

  /** A hub with the right logs and subscribers is the view. */
  lemma ViewIs(st: State, h: Hub)
    requires |h.logs| == |st.rooms| && |h.subscribers| == |st.members| && h.busy == Busy(st)
    requires forall r :: 0 <= r < |st.rooms| ==> h.logs[r] == st.rooms[r].log
    requires forall c :: 0 <= c < |st.members| ==>
      h.subscribers[c] == Abstract(st.members[c], LockOf(st, st.members[c].room))
    ensures View(st) == h
  {
    assert View(st).logs == h.logs;
    assert View(st).subscribers == h.subscribers;
  }

  /** The atomic action each step of the server stands for. */
  function Meaning(st: State, step: Step): Action
    requires Enabled(st, step)
  {
    match step
    case CreateRoom(_) => Open
    case Push(s) => Subscribe(s, st.sessions[s].pc.room)
    case Acquire(s) =>
      var pc := st.sessions[s].pc;
      if pc.room in st.sessions[s].subs then Broadcast(pc.room, s, pc.text) else Stutter
    case Unlock(s) => EndBroadcast(st.sessions[s].pc.room)
    case ListenPoll(c, _) => if st.members[c].ch.queue != [] then Take(c) else Stutter
    case CloseOne(s, r) =>
      var c := st.sessions[s].subs[r];
      Close(c, Pending(st.members[c], LockOf(st, st.members[c].room)) != [])
    case _ => Stutter
  }

  /** A step is the atomic action it stands for. */
  predicate Simulated(st: State, step: Step)
    requires Enabled(st, step)
  {
    Legal(View(st), Meaning(st, step)) && View(Next(st, step)) == Act(View(st), Meaning(st, step))
  }

  /** One turn of the loop hands a channel the message that was pending for it. */
  lemma FanOneMember(st: State, s: nat, d: nat)
    requires Inv(st) && Enabled(st, FanOne(s)) && d < |st.members|
    ensures var st' := DoFanOne(st, s);
      Abstract(st'.members[d], LockOf(st', st'.members[d].room)) ==
      Abstract(st.members[d], LockOf(st, st.members[d].room))
  {
    var r := st.sessions[s].pc.room;
    var k := st.rooms[r].lock.next;
    var c := st.rooms[r].connections[k];
    assert SessionOk(st, s) && MemberOk(st, d);
    if d == c {
      MapsAgree(st, s, r, k);
      assert RoomOk(st, r);
      if Expired(st, c) {
        ExpiredIsClosed(st, c);
      }
    }
  }

  lemma FanOneStutters(st: State, s: nat)
    requires Inv(st) && Enabled(st, FanOne(s))
    ensures View(DoFanOne(st, s)) == View(st)
  {
    var st' := DoFanOne(st, s);
    forall d | 0 <= d < |st'.members|
      ensures View(st).subscribers[d] == Abstract(st'.members[d], LockOf(st', st'.members[d].room))
    {
      FanOneMember(st, s, d);
    }
    ViewIs(st', View(st));
  }

  lemma UnlockFrees(st: State, s: nat)
    requires Inv(st) && Enabled(st, Unlock(s))
    ensures st.sessions[s].pc.room in Busy(st) && Busy(DoUnlock(st, s)) == Busy(st) - {st.sessions[s].pc.room}
  {
  }

  /** At the end of the loop no message is pending for a member. */
  lemma UnlockMember(st: State, s: nat, d: nat)
    requires Inv(st) && Enabled(st, Unlock(s)) && d < |st.members|
    ensures Abstract(st.members[d], LockOf(DoUnlock(st, s), st.members[d].room)) ==
            Abstract(st.members[d], LockOf(st, st.members[d].room))
  {
    assert MemberOk(st, d) && SessionOk(st, s);
  }

  /** Between the end of the loop and the release nothing is owed any more. */
  lemma UnlockEndsBroadcast(st: State, s: nat)
    requires Inv(st) && Enabled(st, Unlock(s))
    ensures Simulated(st, Unlock(s))
  {
    var st' := DoUnlock(st, s);
    UnlockFrees(st, s);
    var h' := Act(View(st), Meaning(st, Unlock(s)));
    forall d | 0 <= d < |st'.members|
      ensures h'.subscribers[d] == Abstract(st'.members[d], LockOf(st', st'.members[d].room))
    {
      UnlockMember(st, s, d);
    }
    ViewIs(st', h');
  }

  /** At the start of a fan-out the message is pending for every open member but the sender. */
  lemma AcquireMember(st: State, s: nat, d: nat)
    requires Inv(st) && Enabled(st, Acquire(s)) && d < |st.members|
    ensures Legal(View(st), Meaning(st, Acquire(s)))
    ensures Abstract(st.members[d], LockOf(DoAcquire(st, s), st.members[d].room)) ==
            Act(View(st), Meaning(st, Acquire(s))).subscribers[d]
  {
    assert MemberOk(st, d);
  }

  lemma AcquireBroadcasts(st: State, s: nat)
    requires Inv(st) && Enabled(st, Acquire(s))
    ensures Simulated(st, Acquire(s))
  {
    var st' := DoAcquire(st, s);
    var h' := Act(View(st), Meaning(st, Acquire(s)));
    assert st'.members == st.members;
    forall d | 0 <= d < |st'.members|
      ensures h'.subscribers[d] == Abstract(st'.members[d], LockOf(st', st'.members[d].room))
    {
      AcquireMember(st, s, d);
    }
    ViewIs(st', h');
  }

  lemma PushSubscribes(st: State, s: nat)
    requires Inv(st) && Enabled(st, Push(s))
    ensures Simulated(st, Push(s))
  {
    var st' := DoPush(st, s);
    var h' := Act(View(st), Meaning(st, Push(s)));
    forall d | 0 <= d < |st'.members|
      ensures h'.subscribers[d] == Abstract(st'.members[d], LockOf(st', st'.members[d].room))
    {
      if d < |st.members| {
        assert MemberOk(st, d);
      } else {
        assert st'.members[d].ch == Fresh();
      }
    }
    ViewIs(st', h');
  }

  lemma CreateRoomOpens(st: State, s: nat)
    requires Inv(st) && Enabled(st, CreateRoom(s))
    ensures Simulated(st, CreateRoom(s))
  {
    var st' := DoCreateRoom(st, s);
    var h' := Act(View(st), Open);
    forall d | 0 <= d < |st'.members|
      ensures h'.subscribers[d] == Abstract(st'.members[d], LockOf(st', st'.members[d].room))
    {
      assert MemberOk(st, d);
    }
    ViewIs(st', h');
  }

  /** What a running fan-out still owes is the newest message of the room. */
  lemma CloseIsLegal(st: State, s: nat, r: nat)
    requires Inv(st) && Enabled(st, CloseOne(s, r))
    ensures Legal(View(st), Meaning(st, CloseOne(s, r)))
  {
    var c := st.sessions[s].subs[r];
    assert SessionOk(st, s);
    assert Owns(st, s, r, c);
    assert RoomOk(st, r);
    assert View(st).logs[r] == st.rooms[r].log;
    assert View(st).subscribers[c] == Abstract(st.members[c], st.rooms[r].lock);
  }

  lemma CloseOneCloses(st: State, s: nat, r: nat)
    requires Inv(st) && Enabled(st, CloseOne(s, r))
    ensures Simulated(st, CloseOne(s, r))
  {
    CloseIsLegal(st, s, r);
    var st' := DoCloseOne(st, s, r);
    var h' := Act(View(st), Meaning(st, CloseOne(s, r)));
    var c := st.sessions[s].subs[r];
    var pending := Pending(st.members[c], LockOf(st, st.members[c].room));
    var queue := st.members[c].ch.queue;
    assert if pending != [] then (queue + pending)[..|queue + pending| - 1] == queue else queue + pending == queue;
    forall d | 0 <= d < |st'.members|
      ensures h'.subscribers[d] == Abstract(st'.members[d], LockOf(st', st'.members[d].room))
    {
    }
    ViewIs(st', h');
  }

  lemma ListenPollTakes(st: State, c: nat, atomic: bool)
    requires Inv(st) && Enabled(st, ListenPoll(c, atomic))
    ensures Simulated(st, ListenPoll(c, atomic))
  {
    var st' := DoListenPoll(st, c, atomic);
    var m := st.members[c];
    var pending := Pending(m, LockOf(st, m.room));
    assert m.ch.queue != [] ==> (m.ch.queue + pending)[1..] == m.ch.queue[1..] + pending;
    var h' := Act(View(st), Meaning(st, ListenPoll(c, atomic)));
    forall d | 0 <= d < |st'.members|
      ensures h'.subscribers[d] == Abstract(st'.members[d], LockOf(st', st'.members[d].room))
    {
    }
    ViewIs(st', h');
  }

  /** The steps that a client of the specification sees. */
  predicate Visible(step: Step) {
    step.CreateRoom? || step.Push? || step.Acquire? || step.CloseOne? || step.ListenPoll? || step.Unlock?
  }

  /** Steps that touch neither a log nor a queue. */
  lemma OthersStutter(st: State, step: Step)
    requires Inv(st) && Enabled(st, step)
    requires !Visible(step) && !step.FanOne?
    ensures View(Next(st, step)) == View(st)
  {
    var st' := Next(st, step);
    if step.Reject? {
      assert SessionOk(st, step.s);
    }
    ViewIs(st', View(st));
  }

  lemma VisibleStepRefines(st: State, step: Step)
    requires Inv(st) && Enabled(st, step) && Visible(step)
    ensures Simulated(st, step)
  {
    match step
    case CreateRoom(s) => CreateRoomOpens(st, s);
    case Push(s) => PushSubscribes(st, s);
    case Acquire(s) => AcquireBroadcasts(st, s);
    case CloseOne(s, r) => CloseOneCloses(st, s, r);
    case ListenPoll(c, atomic) => ListenPollTakes(st, c, atomic);
    case Unlock(s) => UnlockEndsBroadcast(st, s);
  }

  /** Each step of the server is one atomic action, or invisible. */
  lemma StepRefines(st: State, step: Step)
    requires Inv(st) && Enabled(st, step)
    ensures Simulated(st, step)
  {
    if Visible(step) {
      VisibleStepRefines(st, step);
    } else {
      match step
      case FanOne(s) => FanOneStutters(st, s);
      case _ => OthersStutter(st, step);
    }
  }

  /** The atomic actions a schedule stands for. */
  function Meanings(steps: seq<Step>): (actions: seq<Action>)
    requires Runs(Init, steps)
    ensures |actions| == |steps|
  {
    if steps == [] then []
    else
      var before := steps[..|steps| - 1];
      Meanings(before) + [Meaning(Run(Init, before), steps[|steps| - 1])]
  }

  /** Every schedule of the server is a run of the atomic broadcast. */
  lemma {:induction false} FanOutRefinesAtomicBroadcast(steps: seq<Step>)
    requires Runs(Init, steps)
    ensures LegalRun(Hub([], {}, []), Meanings(steps))
    ensures View(Run(Init, steps)) == ActAll(Hub([], {}, []), Meanings(steps))
    decreases |steps|
  {
    if steps != [] {
      var before := steps[..|steps| - 1];
      FanOutRefinesAtomicBroadcast(before);
      ReachableInv(before);
      StepRefines(Run(Init, before), steps[|steps| - 1]);
      assert Meanings(steps)[..|steps| - 1] == Meanings(before);
    }
  }

  /** The books of the atomic specification hold in every reachable state of the server. */
  lemma {:induction false} ReachableSettled(steps: seq<Step>)
    requires Runs(Init, steps)
    ensures AllSettled(View(Run(Init, steps)))
    decreases |steps|
  {
    if steps != [] {
      var before := steps[..|steps| - 1];
      var st := Run(Init, before);
      ReachableSettled(before);
      ReachableInv(before);
      StepRefines(st, steps[|steps| - 1]);
      ActKeepsSettled(View(st), Meaning(st, steps[|steps| - 1]));
    }
  }

  // ---------------------------------------------------------------------------
  // The fan-out without interruption
  // ---------------------------------------------------------------------------

  /** `n` turns of the loop in a row. */
  ghost predicate Fanned(st: State, s: nat, n: nat, st': State)
    decreases n
  {
    if n == 0 then st' == st else Enabled(st, FanOne(s)) && Fanned(DoFanOne(st, s), s, n - 1, st')
  }

  /** One turn, channel by channel. */
  lemma FanOneWrites(st: State, s: nat, d: nat)
    requires Inv(st) && Enabled(st, FanOne(s)) && d < |st.members|
    ensures var r, lock, m := st.sessions[s].pc.room, st.rooms[st.sessions[s].pc.room].lock, st.members[d];
      DoFanOne(st, s).members[d] ==
      if m.room == r && m.slot == lock.next && m.owner != s then m.(ch := Put(m.ch, lock.copy)) else m
  {
    var r := st.sessions[s].pc.room;
    var k := st.rooms[r].lock.next;
    var c := st.rooms[r].connections[k];
    assert SessionOk(st, s) && MemberOk(st, d) && RoomOk(st, r);
    if d == c {
      MapsAgree(st, s, r, k);
      if Expired(st, c) {
        ExpiredIsClosed(st, c);
      }
    }
  }

  /**
   The loop run to its end from entry `next` on writes the message to every entry from there on but the
   sender's, dead or alive, and to nothing else: the contract of `TcpChatRoom.FanOut`.
   */
  lemma {:induction false} UninterruptedFanOut(st: State, s: nat, n: nat, st': State, d: nat)
    requires Inv(st) && Has(st, s) && st.sessions[s].pc.Fanning? && d < |st.members| && Fanned(st, s, n, st')
    requires st.sessions[s].pc.room < |st.rooms| && st.rooms[st.sessions[s].pc.room].lock.Fan?
    ensures var r, lock, m := st.sessions[s].pc.room, st.rooms[st.sessions[s].pc.room].lock, st.members[d];
      d < |st'.members| && st'.members[d] ==
      if m.room == r && lock.next <= m.slot < lock.next + n && m.owner != s then m.(ch := Put(m.ch, lock.copy)) else m
    decreases n
  {
    if n > 0 {
      FanOneKeeps(st, s);
      FanOneWrites(st, s, d);
      UninterruptedFanOut(DoFanOne(st, s), s, n - 1, st', d);
    }
  }
}
