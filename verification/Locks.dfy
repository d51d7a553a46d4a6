/**
 Lock order. Each step of the server is spelled out as the mutexes it takes and releases, and logging and
 the destructors of channels may add more at any point; every task takes them in strictly rising rank and
 holds none where it awaits, so no set of tasks can deadlock.
 */
module Locks {
  import opened ChannelModel
  import opened Requests
  import opened RequestLaws
  import opened Pipeline
  import opened Membership

  datatype Mutex = DirectoryMutex | RoomMutex(r: nat) | ChannelMutex(c: nat) | WriteMutex(s: nat) | LogMutex

  datatype LockOp = Take(m: Mutex) | Drop(m: Mutex)

  /** The directory and the rooms come first, then the channels, then the log. */
  function Rank(m: Mutex): nat {
    match m
    case DirectoryMutex => 1
    case RoomMutex(_) => 1
    case ChannelMutex(_) => 2
    case WriteMutex(_) => 2
    case LogMutex => 3
  }

  /** Only what is held is released, and only what ranks above all that is held is taken. */
  predicate Disciplined(held: set<Mutex>, ops: seq<LockOp>)
    decreases |ops|
  {
    ops == [] ||
    match ops[0]
    case Take(m) => (forall h :: h in held ==> Rank(h) < Rank(m)) && Disciplined(held + {m}, ops[1..])
    case Drop(m) => m in held && Disciplined(held - {m}, ops[1..])
  }

  function HeldAfter(held: set<Mutex>, ops: seq<LockOp>): set<Mutex>
    decreases |ops|
  {
    if ops == [] then held
    else match ops[0]
      case Take(m) => HeldAfter(held + {m}, ops[1..])
      case Drop(m) => HeldAfter(held - {m}, ops[1..])
  }

  lemma {:induction false} DisciplineConcat(held: set<Mutex>, xs: seq<LockOp>, ys: seq<LockOp>)
    ensures HeldAfter(held, xs + ys) == HeldAfter(HeldAfter(held, xs), ys)
    ensures Disciplined(held, xs + ys) <==> Disciplined(held, xs) && Disciplined(HeldAfter(held, xs), ys)
    decreases |xs|
  {
    if xs == [] {
      assert xs + ys == ys;
    } else {
      assert (xs + ys)[1..] == xs[1..] + ys;
      match xs[0]
      case Take(m) => DisciplineConcat(held + {m}, xs[1..], ys);
      case Drop(m) => DisciplineConcat(held - {m}, xs[1..], ys);
    }
  }

  // ---------------------------------------------------------------------------
  // What each step takes and releases
  // ---------------------------------------------------------------------------

  /** A critical section with nothing inside. */
  function Section(m: Mutex): seq<LockOp> {
    [Take(m), Drop(m)]
  }

  /** Whether dispatch gets as far as `try_find_room`. */
  predicate Searches(keys: seq<Key>, subs: set<nat>, line: Line) {
    line.Fields? && "type" in line.fields && line.fields["type"].Text? && "grp" in line.fields &&
    ParseId(line.fields["grp"]).Some? &&
    var kind := CStr(line.fields["type"].text);
    (kind == "msg" && "msg" in line.fields) ||
    (kind == "sub" && !exists r :: r in subs && r < |keys| && keys[r].id == ParseId(line.fields["grp"]).value)
  }

  /** The directory is searched exactly when the decision rests on what is found there. */
  lemma SearchesIff(keys: seq<Key>, subs: set<nat>, line: Line)
    ensures Searches(keys, subs, line) <==>
      var d := Decide(keys, subs, line);
      d.Join? || d.Post? || d == Refuse(SubNoRoom) || d == Refuse(MsgNoRoom) || (d.Leave? && IsA(line, "msg"))
  {
    Kinds(line);
  }

  /** The lock operations of a step, without those that logging and destructors add. */
  function Core(st: State, step: Step): seq<LockOp>
    requires Enabled(st, step)
  {
    match step
    case Receive(s, line) =>
      if Searches(Keys(st.rooms), st.sessions[s].subs.Keys, line) then Section(DirectoryMutex) else []
    case CreateRoom(s) => Section(DirectoryMutex)
    case Push(s) => Section(RoomMutex(st.sessions[s].pc.room))
    case Respond(s) => Section(WriteMutex(s))
    case Acquire(s) => [Take(RoomMutex(st.sessions[s].pc.room))]
    case FanOne(s) =>
      var room := st.rooms[st.sessions[s].pc.room];
      var c := room.connections[room.lock.next];
      if Expired(st, c) || c == st.sessions[s].subs[st.sessions[s].pc.room] then [] else Section(ChannelMutex(c))
    case Unlock(s) => [Drop(RoomMutex(st.sessions[s].pc.room))]
    case Reject(s) => Section(WriteMutex(s)) + [Drop(RoomMutex(st.sessions[s].pc.room))]
    case CloseOne(s, r) => Section(ChannelMutex(st.sessions[s].subs[r]))
    case Finish(s) => Section(WriteMutex(s))
    case ListenCheck(c) => Section(ChannelMutex(c))
    case ListenPoll(c, _) => Section(ChannelMutex(c))
    case ListenForward(c) => Section(WriteMutex(st.members[c].owner))
    case WritePoll(s, _) => Section(WriteMutex(s))
    case _ => []
  }

  /**
   A section that logging or the destructor of a channel adds. `log::println` is called nowhere inside the log's
   own section, and a channel is destroyed nowhere inside a channel's or the log's section.
   */
  predicate Extra(held: set<Mutex>, m: Mutex) {
    2 <= Rank(m) && forall h :: h in held ==> Rank(h) < Rank(m)
  }

  function HeldBy(held: set<Mutex>, op: LockOp): set<Mutex> {
    match op
    case Take(m) => held + {m}
    case Drop(m) => held - {m}
  }

  /** `ops` is `core` with any number of extra sections, at any points. */
  predicate Fills(held: set<Mutex>, core: seq<LockOp>, ops: seq<LockOp>)
    decreases |ops|
  {
    if ops == [] then core == []
    else
      (2 <= |ops| && ops[0].Take? && ops[1] == Drop(ops[0].m) && Extra(held, ops[0].m) &&
       Fills(held, core, ops[2..])) ||
      (core != [] && ops[0] == core[0] && Fills(HeldBy(held, ops[0]), core[1..], ops[1..]))
  }

  /** Extra sections do not break the lock order. */
  lemma {:induction false} FillKeepsOrder(held: set<Mutex>, core: seq<LockOp>, ops: seq<LockOp>)
    requires Disciplined(held, core) && Fills(held, core, ops)
    ensures Disciplined(held, ops) && HeldAfter(held, ops) == HeldAfter(held, core)
    decreases |ops|
  {
    if ops != [] {
      if core != [] && ops[0] == core[0] && Fills(HeldBy(held, ops[0]), core[1..], ops[1..]) {
        FillKeepsOrder(HeldBy(held, ops[0]), core[1..], ops[1..]);
      } else {
        var m := ops[0].m;
        FillKeepsOrder(held, core, ops[2..]);
        assert held + {m} - {m} == held && ops[1..][1..] == ops[2..];
      }
    }
  }

  datatype Task = Acceptor | SessionTask(s: nat) | ListenerTask(c: nat) | WriterTask(s: nat)

  function TaskOf(step: Step): Task {
    match step
    case Accept => Acceptor
    case ListenTop(c) => ListenerTask(c)
    case ListenCheck(c) => ListenerTask(c)
    case ListenPoll(c, _) => ListenerTask(c)
    case ListenPark(c) => ListenerTask(c)
    case ListenForward(c) => ListenerTask(c)
    case WritePoll(s, _) => WriterTask(s)
    case WritePark(s) => WriterTask(s)
    case WriteSend(s) => WriterTask(s)
    case WriteFail(s) => WriterTask(s)
    case _ => SessionTask(step.s)
  }

  /** The mutexes a task holds between two steps: none where it awaits, at most a room's elsewhere. */
  function Holding(st: State, t: Task): set<Mutex> {
    match t
    case SessionTask(s) =>
      if Has(st, s) && st.sessions[s].pc.Fanning? then {RoomMutex(st.sessions[s].pc.room)}
      else if Has(st, s) && st.sessions[s].pc.Rejecting? then {RoomMutex(st.sessions[s].pc.room)}
      else {}
    case _ => {}
  }

  lemma SectionRises(held: set<Mutex>, m: Mutex)
    requires forall h :: h in held ==> Rank(h) < Rank(m)
    ensures Disciplined(held, Section(m)) && HeldAfter(held, Section(m)) == held
  {
    assert held + {m} - {m} == held && Section(m)[1..] == [Drop(m)];
    assert HeldAfter(held + {m}, [Drop(m)]) == HeldAfter(held, []);
  }

  /** The mutexes of a step are taken in rising rank, and leave its task with what it then holds. */
  predicate KeepsOrder(st: State, step: Step, ops: seq<LockOp>)
    requires Enabled(st, step)
  {
    var t := TaskOf(step);
    Disciplined(Holding(st, t), ops) && HeldAfter(Holding(st, t), ops) == Holding(Next(st, step), t)
  }

  lemma AcquireRises(st: State, s: nat)
    requires Enabled(st, Acquire(s))
    ensures KeepsOrder(st, Acquire(s), Core(st, Acquire(s)))
  {
    assert {} + {RoomMutex(st.sessions[s].pc.room)} == {RoomMutex(st.sessions[s].pc.room)};
  }

  lemma FanOneRises(st: State, s: nat)
    requires Enabled(st, FanOne(s))
    ensures KeepsOrder(st, FanOne(s), Core(st, FanOne(s)))
  {
    var room := st.rooms[st.sessions[s].pc.room];
    SectionRises(Holding(st, SessionTask(s)), ChannelMutex(room.connections[room.lock.next]));
  }

  lemma UnlockRises(st: State, s: nat)
    requires Enabled(st, Unlock(s))
    ensures KeepsOrder(st, Unlock(s), Core(st, Unlock(s)))
  {
    var m := RoomMutex(st.sessions[s].pc.room);
    assert {m} - {m} == {};
  }

  lemma RejectRises(st: State, s: nat)
    requires Enabled(st, Reject(s))
    ensures KeepsOrder(st, Reject(s), Core(st, Reject(s)))
  {
    var m := RoomMutex(st.sessions[s].pc.room);
    SectionRises({m}, WriteMutex(s));
    DisciplineConcat({m}, Section(WriteMutex(s)), [Drop(m)]);
    assert {m} - {m} == {};
  }

  lemma OneSectionRises(st: State, step: Step)
    requires Enabled(st, step) && !step.Acquire? && !step.FanOne? && !step.Unlock? && !step.Reject?
    ensures KeepsOrder(st, step, Core(st, step))
  {
    assert Holding(st, TaskOf(step)) == {} && Holding(Next(st, step), TaskOf(step)) == {};
    if Core(st, step) != [] {
      SectionRises({}, Core(st, step)[0].m);
    }
  }

  /** Every step keeps the lock order, whatever logging and destructors add to it. */
  lemma StepRises(st: State, step: Step, ops: seq<LockOp>)
    requires Enabled(st, step) && Fills(Holding(st, TaskOf(step)), Core(st, step), ops)
    ensures KeepsOrder(st, step, ops)
  {
    match step {
      case Acquire(s) => AcquireRises(st, s);
      case FanOne(s) => FanOneRises(st, s);
      case Unlock(s) => UnlockRises(st, s);
      case Reject(s) => RejectRises(st, s);
      case _ => OneSectionRises(st, step);
    }
    FillKeepsOrder(Holding(st, TaskOf(step)), Core(st, step), ops);
  }

  // ---------------------------------------------------------------------------
  // What is shared is changed under its mutex
  // ---------------------------------------------------------------------------

  /** The task holds the mutex, or takes it in this step. */
  predicate Covers(st: State, step: Step, m: Mutex)
    requires Enabled(st, step)
  {
    m in Holding(st, TaskOf(step)) || Take(m) in Core(st, step)
  }

  predicate Untouched<T(==)>(a: Chan<T>, b: Chan<T>) {
    a.queue == b.queue && a.closed == b.closed
  }

  lemma ChannelIsGuarded(st: State, step: Step, c: nat)
    requires Enabled(st, step) && c < |st.members|
    ensures Untouched(st.members[c].ch, Next(st, step).members[c].ch) || Covers(st, step, ChannelMutex(c))
  {
  }

  lemma WriteChannelIsGuarded(st: State, step: Step, s: nat)
    requires Enabled(st, step) && s < |st.sessions|
    ensures Untouched(st.sessions[s].out, Next(st, step).sessions[s].out) || Covers(st, step, WriteMutex(s))
  {
  }

  lemma RoomIsGuarded(st: State, step: Step, r: nat)
    requires Enabled(st, step) && r < |st.rooms|
    ensures Next(st, step).rooms[r] == st.rooms[r] || Covers(st, step, RoomMutex(r))
  {
  }

  /** A step changes a channel, a room or the directory only under the mutex that guards it. */
  lemma ChangesAreGuarded(st: State, step: Step)
    requires Enabled(st, step)
    ensures var st' := Next(st, step);
      && (forall c :: 0 <= c < |st.members| ==>
            Untouched(st.members[c].ch, st'.members[c].ch) || Covers(st, step, ChannelMutex(c)))
      && (forall s :: 0 <= s < |st.sessions| ==>
            Untouched(st.sessions[s].out, st'.sessions[s].out) || Covers(st, step, WriteMutex(s)))
      && (forall r :: 0 <= r < |st.rooms| ==> st'.rooms[r] == st.rooms[r] || Covers(st, step, RoomMutex(r)))
      && (|st'.rooms| == |st.rooms| || Covers(st, step, DirectoryMutex))
  {
    var st' := Next(st, step);
    forall c | 0 <= c < |st.members|
      ensures Untouched(st.members[c].ch, st'.members[c].ch) || Covers(st, step, ChannelMutex(c))
    {
      ChannelIsGuarded(st, step, c);
    }
    forall s | 0 <= s < |st.sessions|
      ensures Untouched(st.sessions[s].out, st'.sessions[s].out) || Covers(st, step, WriteMutex(s))
    {
      WriteChannelIsGuarded(st, step, s);
    }
    forall r | 0 <= r < |st.rooms| ensures st'.rooms[r] == st.rooms[r] || Covers(st, step, RoomMutex(r)) {
      RoomIsGuarded(st, step, r);
    }
  }

  /** The state with other contents in channel `c`, or in the write channel of session `s`. */
  function OtherContents(st: State, c: nat, queue: seq<Copy>, closed: bool): State
    requires c < |st.members|
  {
    SetMember(st, c, st.members[c].(ch := st.members[c].ch.(queue := queue, closed := closed)))
  }

  function OtherWriteContents(st: State, s: nat, queue: seq<Frame>, closed: bool): State
    requires Has(st, s)
  {
    SetSession(st, s, st.sessions[s].(out := st.sessions[s].out.(queue := queue, closed := closed)))
  }

  predicate SameState(a: State, b: State) {
    a.rooms == b.rooms && a.members == b.members && a.sessions == b.sessions
  }

  predicate OfTask(step: Step) {
    step.ListenTop? || step.ListenCheck? || step.ListenPoll? || step.ListenPark? || step.ListenForward? ||
    step.WritePoll? || step.WritePark? || step.WriteSend? || step.WriteFail?
  }

  predicate OfEntry(step: Step) {
    step.Accept? || step.Receive? || step.CreateRoom?
  }

  predicate OfJoin(step: Step) {
    step.Push? || step.Spawn? || step.Emplace?
  }

  predicate OfSection(step: Step) {
    step.Acquire? || step.FanOne?
  }

  lemma TaskReadsAreGuarded(st: State, step: Step, c: nat, queue: seq<Copy>, closed: bool)
    requires Enabled(st, step) && c < |st.members| && !Covers(st, step, ChannelMutex(c)) && OfTask(step)
    ensures Enabled(OtherContents(st, c, queue, closed), step)
    ensures SameState(Next(OtherContents(st, c, queue, closed), step), OtherContents(Next(st, step), c, queue, closed))
  {
  }

  lemma EntryReadsAreGuarded(st: State, step: Step, c: nat, queue: seq<Copy>, closed: bool)
    requires Enabled(st, step) && c < |st.members| && !Covers(st, step, ChannelMutex(c)) && OfEntry(step)
    ensures Enabled(OtherContents(st, c, queue, closed), step)
    ensures SameState(Next(OtherContents(st, c, queue, closed), step), OtherContents(Next(st, step), c, queue, closed))
  {
  }

  lemma JoinReadsAreGuarded(st: State, step: Step, c: nat, queue: seq<Copy>, closed: bool)
    requires Enabled(st, step) && c < |st.members| && !Covers(st, step, ChannelMutex(c)) && OfJoin(step)
    ensures Enabled(OtherContents(st, c, queue, closed), step)
    ensures SameState(Next(OtherContents(st, c, queue, closed), step), OtherContents(Next(st, step), c, queue, closed))
  {
  }

  lemma SectionReadsAreGuarded(st: State, step: Step, c: nat, queue: seq<Copy>, closed: bool)
    requires Enabled(st, step) && c < |st.members| && !Covers(st, step, ChannelMutex(c)) && OfSection(step)
    ensures Enabled(OtherContents(st, c, queue, closed), step)
    ensures SameState(Next(OtherContents(st, c, queue, closed), step), OtherContents(Next(st, step), c, queue, closed))
  {
  }

  lemma ExitReadsAreGuarded(st: State, step: Step, c: nat, queue: seq<Copy>, closed: bool)
    requires Enabled(st, step) && c < |st.members| && !Covers(st, step, ChannelMutex(c))
    requires !OfTask(step) && !OfEntry(step) && !OfJoin(step) && !OfSection(step)
    ensures Enabled(OtherContents(st, c, queue, closed), step)
    ensures SameState(Next(OtherContents(st, c, queue, closed), step), OtherContents(Next(st, step), c, queue, closed))
  {
  }

  /** A step that does not hold a channel's mutex does not look at its contents: any others would do as well. */
  lemma ReadsAreGuarded(st: State, step: Step, c: nat, queue: seq<Copy>, closed: bool)
    requires Enabled(st, step) && c < |st.members| && !Covers(st, step, ChannelMutex(c))
    ensures Enabled(OtherContents(st, c, queue, closed), step)
    ensures SameState(Next(OtherContents(st, c, queue, closed), step), OtherContents(Next(st, step), c, queue, closed))
  {
    if OfTask(step) {
      TaskReadsAreGuarded(st, step, c, queue, closed);
    } else if OfEntry(step) {
      EntryReadsAreGuarded(st, step, c, queue, closed);
    } else if OfJoin(step) {
      JoinReadsAreGuarded(st, step, c, queue, closed);
    } else if OfSection(step) {
      SectionReadsAreGuarded(st, step, c, queue, closed);
    } else {
      ExitReadsAreGuarded(st, step, c, queue, closed);
    }
  }

  lemma TaskWriteReadsAreGuarded(st: State, step: Step, s: nat, queue: seq<Frame>, closed: bool)
    requires Enabled(st, step) && Has(st, s) && !Covers(st, step, WriteMutex(s)) && OfTask(step)
    ensures Enabled(OtherWriteContents(st, s, queue, closed), step)
    ensures SameState(Next(OtherWriteContents(st, s, queue, closed), step),
                      OtherWriteContents(Next(st, step), s, queue, closed))
  {
  }

  lemma EntryWriteReadsAreGuarded(st: State, step: Step, s: nat, queue: seq<Frame>, closed: bool)
    requires Enabled(st, step) && Has(st, s) && !Covers(st, step, WriteMutex(s)) && OfEntry(step)
    ensures Enabled(OtherWriteContents(st, s, queue, closed), step)
    ensures SameState(Next(OtherWriteContents(st, s, queue, closed), step),
                      OtherWriteContents(Next(st, step), s, queue, closed))
  {
  }

  lemma JoinWriteReadsAreGuarded(st: State, step: Step, s: nat, queue: seq<Frame>, closed: bool)
    requires Enabled(st, step) && Has(st, s) && !Covers(st, step, WriteMutex(s)) && OfJoin(step)
    ensures Enabled(OtherWriteContents(st, s, queue, closed), step)
    ensures SameState(Next(OtherWriteContents(st, s, queue, closed), step),
                      OtherWriteContents(Next(st, step), s, queue, closed))
  {
  }

  lemma SectionWriteReadsAreGuarded(st: State, step: Step, s: nat, queue: seq<Frame>, closed: bool)
    requires Enabled(st, step) && Has(st, s) && !Covers(st, step, WriteMutex(s)) && OfSection(step)
    ensures Enabled(OtherWriteContents(st, s, queue, closed), step)
    ensures SameState(Next(OtherWriteContents(st, s, queue, closed), step),
                      OtherWriteContents(Next(st, step), s, queue, closed))
  {
  }

  lemma ExitWriteReadsAreGuarded(st: State, step: Step, s: nat, queue: seq<Frame>, closed: bool)
    requires Enabled(st, step) && Has(st, s) && !Covers(st, step, WriteMutex(s))
    requires !OfTask(step) && !OfEntry(step) && !OfJoin(step) && !OfSection(step)
    ensures Enabled(OtherWriteContents(st, s, queue, closed), step)
    ensures SameState(Next(OtherWriteContents(st, s, queue, closed), step),
                      OtherWriteContents(Next(st, step), s, queue, closed))
  {
  }

  /** The same for the write channels. */
  lemma WriteReadsAreGuarded(st: State, step: Step, s: nat, queue: seq<Frame>, closed: bool)
    requires Enabled(st, step) && Has(st, s) && !Covers(st, step, WriteMutex(s))
    ensures Enabled(OtherWriteContents(st, s, queue, closed), step)
    ensures SameState(Next(OtherWriteContents(st, s, queue, closed), step),
                      OtherWriteContents(Next(st, step), s, queue, closed))
  {
    if OfTask(step) {
      TaskWriteReadsAreGuarded(st, step, s, queue, closed);
    } else if OfEntry(step) {
      EntryWriteReadsAreGuarded(st, step, s, queue, closed);
    } else if OfJoin(step) {
      JoinWriteReadsAreGuarded(st, step, s, queue, closed);
    } else if OfSection(step) {
      SectionWriteReadsAreGuarded(st, step, s, queue, closed);
    } else {
      ExitWriteReadsAreGuarded(st, step, s, queue, closed);
    }
  }

  /** The mutex of a room is held by the session its state names, and by no other task. */
  lemma HolderIsHolding(st: State, r: nat, t: Task)
    requires Inv(st) && r < |st.rooms|
    ensures RoomMutex(r) in Holding(st, t) <==> !st.rooms[r].lock.Free? && t == SessionTask(st.rooms[r].lock.holder)
  {
    assert RoomOk(st, r);
    if t.SessionTask? && Has(st, t.s) {
      assert SessionOk(st, t.s);
    }
  }

  /** A room's mutex is taken only while nobody holds it. */
  lemma TakenWhenFree(st: State, step: Step, r: nat)
    requires Enabled(st, step) && r < |st.rooms| && Take(RoomMutex(r)) in Core(st, step)
    ensures st.rooms[r].lock.Free?
  {
  }

  /** What a task holds is changed by its own steps only. */
  lemma OthersKeepHeld(st: State, step: Step, t: Task)
    requires Enabled(st, step) && TaskOf(step) != t
    ensures Holding(Next(st, step), t) == Holding(st, t)
  {
  }

  /** What the steps of a run took and released, one list for each step. */
  predicate Traces(steps: seq<Step>, traces: seq<seq<LockOp>>)
    requires Runs(Init, steps)
    decreases |steps|
  {
    |traces| == |steps| &&
    (steps == [] ||
     var n := |steps| - 1;
     var st := Run(Init, steps[..n]);
     Traces(steps[..n], traces[..n]) && Fills(Holding(st, TaskOf(steps[n])), Core(st, steps[n]), traces[n]))
  }

  /** All that a task takes and releases in a run. */
  function TaskTrace(steps: seq<Step>, traces: seq<seq<LockOp>>, t: Task): seq<LockOp>
    requires |traces| == |steps|
  {
    if steps == [] then []
    else
      var n := |steps| - 1;
      TaskTrace(steps[..n], traces[..n], t) + (if TaskOf(steps[n]) == t then traces[n] else [])
  }

  /** In every run every task keeps the lock order. */
  lemma {:induction false} EveryTaskIsDisciplined(steps: seq<Step>, traces: seq<seq<LockOp>>, t: Task)
    requires Runs(Init, steps) && Traces(steps, traces)
    ensures Disciplined({}, TaskTrace(steps, traces, t))
    ensures HeldAfter({}, TaskTrace(steps, traces, t)) == Holding(Run(Init, steps), t)
    decreases |steps|
  {
    if steps != [] {
      var n := |steps| - 1;
      var st, earlier := Run(Init, steps[..n]), TaskTrace(steps[..n], traces[..n], t);
      EveryTaskIsDisciplined(steps[..n], traces[..n], t);
      if TaskOf(steps[n]) == t {
        StepRises(st, steps[n], traces[n]);
        DisciplineConcat({}, earlier, traces[n]);
      } else {
        OthersKeepHeld(st, steps[n], t);
        assert earlier + [] == earlier;
      }
    }
  }

  // ---------------------------------------------------------------------------
  // No deadlock
  // ---------------------------------------------------------------------------

  /** A task in the middle of its work: what it holds, and what it still does until it holds nothing. */
  datatype Point = Point(held: set<Mutex>, rest: seq<LockOp>)

  predicate Orderly(p: Point) {
    Disciplined(p.held, p.rest) && HeldAfter(p.held, p.rest) == {}
  }

  /** The task waits for a mutex that another task holds. */
  predicate Blocked(tasks: seq<Point>, i: nat)
    requires i < |tasks|
  {
    tasks[i].rest != [] && tasks[i].rest[0].Take? &&
    exists j :: 0 <= j < |tasks| && tasks[i].rest[0].m in tasks[j].held
  }

  predicate CanGo(tasks: seq<Point>, i: nat) {
    i < |tasks| && tasks[i].rest != [] && !Blocked(tasks, i)
  }

  /** Follow the chain of waiting tasks: the rank rises at each link, so the chain ends. */
  lemma {:induction false} SomeoneCanGo(tasks: seq<Point>, i: nat)
    requires forall k :: 0 <= k < |tasks| ==> Orderly(tasks[k])
    requires i < |tasks| && tasks[i].rest != []
    ensures exists j :: CanGo(tasks, j)
    decreases if tasks[i].rest[0].Take? then 4 - Rank(tasks[i].rest[0].m) else 0
  {
    if Blocked(tasks, i) {
      var m := tasks[i].rest[0].m;
      var j :| 0 <= j < |tasks| && m in tasks[j].held;
      assert Orderly(tasks[j]);
      SomeoneCanGo(tasks, j);
    } else {
      assert CanGo(tasks, i);
    }
  }

  /** Any number of tasks, each anywhere in orderly work: as long as one has work left, one can go on. */
  lemma NoDeadlock(tasks: seq<Point>)
    requires forall k :: 0 <= k < |tasks| ==> Orderly(tasks[k])
    requires exists i :: 0 <= i < |tasks| && tasks[i].rest != []
    ensures exists j :: CanGo(tasks, j)
  {
    var i :| 0 <= i < |tasks| && tasks[i].rest != [];
    SomeoneCanGo(tasks, i);
  }

  /** A disciplined trace that ends with nothing held is orderly at each of its points. */
  lemma EveryPointIsOrderly(xs: seq<LockOp>, ys: seq<LockOp>)
    requires Disciplined({}, xs + ys) && HeldAfter({}, xs + ys) == {}
    ensures Orderly(Point(HeldAfter({}, xs), ys))
  {
    DisciplineConcat({}, xs, ys);
  }

  /** What a fan-out still takes and releases from connection `from` on, if it skips the channels in `skip`. */
  function RestOfFan(connections: seq<nat>, from: nat, r: nat, skip: set<nat>): seq<LockOp>
    requires from <= |connections|
    decreases |connections| - from
  {
    if from == |connections| then [Drop(RoomMutex(r))]
    else
      (if connections[from] in skip then [] else Section(ChannelMutex(connections[from]))) +
      RestOfFan(connections, from + 1, r, skip)
  }

  lemma {:induction false} RestOfFanIsOrderly(connections: seq<nat>, from: nat, r: nat, skip: set<nat>)
    requires from <= |connections|
    ensures Orderly(Point({RoomMutex(r)}, RestOfFan(connections, from, r, skip)))
    decreases |connections| - from
  {
    var held := {RoomMutex(r)};
    if from == |connections| {
      assert held - {RoomMutex(r)} == {};
    } else {
      var rest := RestOfFan(connections, from + 1, r, skip);
      RestOfFanIsOrderly(connections, from + 1, r, skip);
      SectionRises(held, ChannelMutex(connections[from]));
      DisciplineConcat(held, Section(ChannelMutex(connections[from])), rest);
      assert [] + rest == rest;
    }
  }

  /** What a task still does before it holds nothing, without what logging and destructors add. */
  function StillToDo(st: State, t: Task, skip: set<nat>): seq<LockOp> {
    if t.SessionTask? && Has(st, t.s) then
      match st.sessions[t.s].pc
      case Fanning(r) =>
        if r < |st.rooms| && st.rooms[r].lock.Fan? && st.rooms[r].lock.next <= |st.rooms[r].connections|
        then RestOfFan(st.rooms[r].connections, st.rooms[r].lock.next, r, skip)
        else []
      case Rejecting(r) => Section(WriteMutex(t.s)) + [Drop(RoomMutex(r))]
      case _ => []
    else []
  }

  lemma StillToDoIsOrderly(st: State, t: Task, skip: set<nat>, rest: seq<LockOp>)
    requires Inv(st) && Fills(Holding(st, t), StillToDo(st, t, skip), rest)
    ensures Orderly(Point(Holding(st, t), rest))
  {
    if t.SessionTask? && Has(st, t.s) {
      assert SessionOk(st, t.s);
      match st.sessions[t.s].pc
      case Fanning(r) =>
        assert RoomOk(st, r);
        RestOfFanIsOrderly(st.rooms[r].connections, st.rooms[r].lock.next, r, skip);
      case Rejecting(r) =>
        SectionRises({RoomMutex(r)}, WriteMutex(t.s));
        DisciplineConcat({RoomMutex(r)}, Section(WriteMutex(t.s)), [Drop(RoomMutex(r))]);
        assert {RoomMutex(r)} - {RoomMutex(r)} == {};
      case _ =>
    }
    FillKeepsOrder(Holding(st, t), StillToDo(st, t, skip), rest);
  }

  /** A task stopped after the first `cut` operations of `trace`, with `rest` to follow the trace. */
  function PointAt(trace: seq<LockOp>, cut: nat, rest: seq<LockOp>): Point
    requires cut <= |trace|
  {
    Point(HeldAfter({}, trace[..cut]), trace[cut..] + rest)
  }

  lemma CutIsOrderly(trace: seq<LockOp>, cut: nat, rest: seq<LockOp>)
    requires cut <= |trace| && Disciplined({}, trace) && Orderly(Point(HeldAfter({}, trace), rest))
    ensures Orderly(PointAt(trace, cut, rest))
  {
    DisciplineConcat({}, trace, rest);
    assert trace + rest == trace[..cut] + (trace[cut..] + rest);
    EveryPointIsOrderly(trace[..cut], trace[cut..] + rest);
  }

  lemma PointIsOrderly(steps: seq<Step>, traces: seq<seq<LockOp>>, t: Task, cut: nat, skip: set<nat>, rest: seq<LockOp>)
    requires Runs(Init, steps) && Traces(steps, traces) && cut <= |TaskTrace(steps, traces, t)|
    requires Fills(Holding(Run(Init, steps), t), StillToDo(Run(Init, steps), t, skip), rest)
    ensures Orderly(PointAt(TaskTrace(steps, traces, t), cut, rest))
  {
    EveryTaskIsDisciplined(steps, traces, t);
    ReachableInv(steps);
    StillToDoIsOrderly(Run(Init, steps), t, skip, rest);
    CutIsOrderly(TaskTrace(steps, traces, t), cut, rest);
  }

  /** A task of a run, stopped between two of its lock operations. */
  datatype Stop = Stop(task: Task, cut: nat, skip: set<nat>, rest: seq<LockOp>)

  predicate StopsAt(steps: seq<Step>, traces: seq<seq<LockOp>>, stop: Stop, p: Point)
    requires Runs(Init, steps) && |traces| == |steps|
  {
    && stop.cut <= |TaskTrace(steps, traces, stop.task)|
    && Fills(Holding(Run(Init, steps), stop.task), StillToDo(Run(Init, steps), stop.task, stop.skip), stop.rest)
    && p == PointAt(TaskTrace(steps, traces, stop.task), stop.cut, stop.rest)
  }

  /**
   The tasks of the server, any number of them, each stopped between any two of its lock operations, with
   whatever logging and destructors add: as long as one has an operation left, some task is not blocked.
   */
  lemma ServerNeverDeadlocks(steps: seq<Step>, traces: seq<seq<LockOp>>, stops: seq<Stop>, points: seq<Point>)
    requires Runs(Init, steps) && Traces(steps, traces) && |stops| == |points|
    requires forall k :: 0 <= k < |stops| ==> StopsAt(steps, traces, stops[k], points[k])
    requires exists k :: 0 <= k < |points| && points[k].rest != []
    ensures exists j :: CanGo(points, j)
  {
    forall k | 0 <= k < |points| ensures Orderly(points[k]) {
      assert StopsAt(steps, traces, stops[k], points[k]);
      PointIsOrderly(steps, traces, stops[k].task, stops[k].cut, stops[k].skip, stops[k].rest);
    }
    NoDeadlock(points);
  }
}
