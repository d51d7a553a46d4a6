/**
 What a session's requests bring about: the reply stream and the room logs are folds over the lines
 the session was served, in order, whatever else the server interleaves with them.
 */
module Outputs {
  import opened Requests
  import opened Pipeline
  import opened Membership

  // ---------------------------------------------------------------------------
  // The folds
  // ---------------------------------------------------------------------------

  /** The reply to one line: at most one. */
  function ReplyTo(e: Served): (r: seq<Wire>)
    ensures |r| <= 1
  {
    ReplyFor(e.decision, e.keys, e.subs)
  }

  function RepliesTo(served: seq<Served>): seq<Wire> {
    if served == [] then [] else RepliesTo(served[..|served| - 1]) + ReplyTo(served[|served| - 1])
  }

  /** The message a decision puts into the log of room `r`. */
  function PostFor(d: Decision, subs: set<nat>, r: nat): (t: seq<string>)
    ensures |t| <= 1
  {
    match d
    case Post(room, text) => if room == r && r in subs then [text] else []
    case _ => []
  }

  /** The message one line puts into the log of room `r`: at most one. */
  function PostTo(e: Served, r: nat): (t: seq<string>)
    ensures |t| <= 1
  {
    PostFor(e.decision, e.subs, r)
  }

  function PostsTo(served: seq<Served>, r: nat): seq<string> {
    if served == [] then [] else PostsTo(served[..|served| - 1], r) + PostTo(served[|served| - 1], r)
  }

  /** The replies among the frames of a write channel. */
  function Replies(frames: seq<Frame>): seq<Wire> {
    if frames == [] then []
    else
      var last := frames[|frames| - 1];
      Replies(frames[..|frames| - 1]) + (if last.Reply? then [last.wire] else [])
  }

  /** The messages of sender `s` in a log. */
  function TextsBy(log: seq<Entry>, s: nat): seq<string> {
    if log == [] then []
    else
      var last := log[|log| - 1];
      TextsBy(log[..|log| - 1], s) + (if last.sender == s then [last.text] else [])
  }

  // ---------------------------------------------------------------------------
  // The invariant
  // ---------------------------------------------------------------------------

  /** The reply the session has committed to and not written yet. */
  function PendingReply(rooms: seq<Room>, se: Session): seq<Wire> {
    match se.pc
    case Answering(w) => [w]
    case Joining(r, created) => if r < |rooms| then [Confirmation(KeyOf(rooms[r]), created)] else []
    case Pushed(r, _, created) => if r < |rooms| then [Confirmation(KeyOf(rooms[r]), created)] else []
    case Spawned(r, _, created) => if r < |rooms| then [Confirmation(KeyOf(rooms[r]), created)] else []
    case Posting(r, _) => if r in se.subs then [] else [NOT_SUBSCRIBED]
    case Rejecting(_) => [NOT_SUBSCRIBED]
    case _ => []
  }

  function PendingPost(se: Session, r: nat): seq<string> {
    match se.pc
    case Posting(room, text) => if room == r && r in se.subs then [text] else []
    case _ => []
  }

  /** The replies written so far and the pending one are the fold over the lines served. */
  predicate Replied(rooms: seq<Room>, se: Session) {
    Replies(se.accepted) + PendingReply(rooms, se) == RepliesTo(se.served)
  }

  predicate ReplyStream(st: State, s: nat)
    requires s < |st.sessions|
  {
    Replied(st.rooms, st.sessions[s])
  }

  /** The session's messages in room `r`'s log and the pending one are the fold over the lines served. */
  predicate PostStream(st: State, s: nat, r: nat)
    requires s < |st.sessions|
  {
    Posted(st.rooms, s, r) + PendingPost(st.sessions[s], r) == PostsTo(st.sessions[s].served, r)
  }

  /** What sender `s` has in the log of room `r`. */
  function Posted(rooms: seq<Room>, s: nat, r: nat): seq<string> {
    if r < |rooms| then TextsBy(rooms[r].log, s) else []
  }

  ghost predicate Ordered(st: State) {
    && (forall s :: 0 <= s < |st.sessions| ==> ReplyStream(st, s))
    && (forall s, r :: 0 <= s < |st.sessions| && 0 <= r ==> PostStream(st, s, r))
    && (forall r, i :: 0 <= r < |st.rooms| && 0 <= i < |st.rooms[r].log| ==>
          st.rooms[r].log[i].sender < |st.sessions|)
  }

  // ---------------------------------------------------------------------------
  // Every step keeps it
  // ---------------------------------------------------------------------------

  lemma RepliesTo1(served: seq<Served>, e: Served)
    ensures RepliesTo(served + [e]) == RepliesTo(served) + ReplyTo(e)
  {
    assert (served + [e])[..|served|] == served;
  }

  lemma PostsTo1(served: seq<Served>, e: Served, r: nat)
    ensures PostsTo(served + [e], r) == PostsTo(served, r) + PostTo(e, r)
  {
    assert (served + [e])[..|served|] == served;
  }

  lemma EmitReplies(se: Session, f: Frame)
    ensures Replies(Emit(se, f).accepted) ==
            Replies(se.accepted) + (if f.Reply? && !se.out.closed then [f.wire] else [])
  {
    assert (se.accepted + [f])[..|se.accepted|] == se.accepted;
  }

  lemma DispatchPends(rooms: seq<Room>, se: Session, line: Line, d: Decision)
    requires !d.Create?
    ensures PendingReply(rooms, se.(pc := After(d, se.subs, line))) == ReplyFor(d, Keys(rooms), se.subs.Keys)
  {
  }

  lemma DispatchedReplies(rooms: seq<Room>, se: Session, line: Line, d: Decision)
    requires se.pc.Idle? && Replied(rooms, se)
    ensures Replied(rooms, Dispatched(Keys(rooms), se, line, d))
  {
    if d.Create? {
      assert se.served + [] == se.served;
    } else {
      DispatchPends(rooms, se, line, d);
      RepliesTo1(se.served, Served(line, Keys(rooms), se.subs.Keys, d));
    }
  }

  lemma ReceiveReplies(st: State, s: nat, line: Line)
    requires Enabled(st, Receive(s, line)) && ReplyStream(st, s)
    ensures ReplyStream(DoReceive(st, s, line), s)
  {
    var keys, se := Keys(st.rooms), st.sessions[s];
    DispatchedReplies(st.rooms, se, line, Decide(keys, se.subs.Keys, line));
  }

  /** The confirmation of a room that is about to be created. */
  lemma CreatedReplies(rooms: seq<Room>, se: Session, room: Room, e: Served)
    requires se.pc.Creating? && Replied(rooms, se)
    requires e.decision == Decision.Create(se.pc.name) && |e.keys| == |rooms|
    requires KeyOf(room) == Key(NewId(|rooms|), se.pc.name)
    ensures Replied(rooms + [room], se.(pc := Joining(|rooms|, true), served := se.served + [e]))
  {
    RepliesTo1(se.served, e);
    assert (rooms + [room])[|rooms|] == room;
  }

  lemma CreateRoomReplies(st: State, s: nat)
    requires Enabled(st, CreateRoom(s)) && ReplyStream(st, s)
    ensures ReplyStream(DoCreateRoom(st, s), s)
  {
    var se, n := st.sessions[s], |st.rooms|;
    var e := Served(se.pc.line, Keys(st.rooms), se.subs.Keys, Decision.Create(se.pc.name));
    CreatedReplies(st.rooms, se, Room(NewId(n), se.pc.name, [], Free, []), e);
  }

  /** A write moves the pending reply into the write channel. */
  lemma WriteKeepsReplies(st: State, st': State, s: nat, wire: Wire)
    requires Has(st, s) && Has(st', s) && ReplyStream(st, s) && !st.sessions[s].out.closed
    requires PendingReply(st.rooms, st.sessions[s]) == [wire]
    requires st'.sessions[s] == Emit(st.sessions[s], Reply(wire)).(pc := Idle)
    ensures ReplyStream(st', s)
  {
    EmitReplies(st.sessions[s], Reply(wire));
  }

  /** A forwarded frame is no reply. */
  lemma EmitForwardKeepsReplies(rooms: seq<Room>, se: Session, f: Frame)
    requires Replied(rooms, se) && f.Forward?
    ensures Replied(rooms, Emit(se, f))
  {
    EmitReplies(se, f);
    assert Replies(se.accepted) + [] == Replies(se.accepted);
  }

  lemma ForwardKeepsReplies(st: State, c: nat, s: nat)
    requires Enabled(st, ListenForward(c)) && s < |st.sessions| && ReplyStream(st, s)
    ensures ReplyStream(DoListenForward(st, c), s)
  {
    var m := st.members[c];
    if s == m.owner {
      EmitForwardKeepsReplies(st.rooms, st.sessions[s],
                              Forward(c, m.pc.copy.at, Relay(m.pc.copy.text, st.rooms[m.room].name)));
    }
  }

  predicate Quiet(step: Step) {
    !step.Receive? && !step.CreateRoom? && !step.Respond? && !step.Reject? && !step.ListenForward?
  }

  /** The steps of listeners and writers. */
  predicate Background(step: Step) {
    step.ListenTop? || step.ListenCheck? || step.ListenPoll? || step.ListenPark? || step.ListenForward? ||
    step.WritePoll? || step.WritePark? || step.WriteSend? || step.WriteFail?
  }

  /** They touch neither a room nor what a session has to do. */
  lemma BackgroundKeepsRequests(st: State, step: Step, s: nat)
    requires Enabled(st, step) && Background(step) && s < |st.sessions|
    ensures Next(st, step).rooms == st.rooms && |Next(st, step).sessions| == |st.sessions|
    ensures var se, se' := st.sessions[s], Next(st, step).sessions[s];
      se'.pc == se.pc && se'.subs == se.subs && se'.served == se.served
  {
  }

  /** The other steps neither write to a session's channel nor serve a line. */
  lemma QuietStepsWriteNothing(st: State, step: Step, s: nat)
    requires Enabled(st, step) && Quiet(step) && s < |st.sessions|
    ensures var se, se' := st.sessions[s], Next(st, step).sessions[s];
      se'.accepted == se.accepted && se'.served == se.served
  {
  }

  /** They keep the promise of a reply, too: first the steps of the broadcast section. */
  lemma SectionKeepsPending(st: State, step: Step, s: nat)
    requires Enabled(st, step) && (step.Acquire? || step.FanOne? || step.Unlock?) && s < |st.sessions| && PcOk(st, s)
    ensures PendingReply(Next(st, step).rooms, Next(st, step).sessions[s]) == PendingReply(st.rooms, st.sessions[s])
  {
  }

  lemma JoinKeepsPending(st: State, step: Step, s: nat)
    requires Enabled(st, step) && (step.Push? || step.Spawn? || step.Emplace?) && s < |st.sessions| && PcOk(st, s)
    ensures PendingReply(Next(st, step).rooms, Next(st, step).sessions[s]) == PendingReply(st.rooms, st.sessions[s])
  {
  }

  lemma LeaveKeepsPending(st: State, step: Step, s: nat)
    requires Enabled(st, step) && (step.Accept? || step.Hangup? || step.CloseOne? || step.Finish?)
    requires s < |st.sessions|
    ensures PendingReply(Next(st, step).rooms, Next(st, step).sessions[s]) == PendingReply(st.rooms, st.sessions[s])
  {
  }

  lemma QuietStepsKeepPending(st: State, step: Step, s: nat)
    requires Enabled(st, step) && Quiet(step) && s < |st.sessions| && PcOk(st, s)
    ensures PendingReply(Next(st, step).rooms, Next(st, step).sessions[s]) == PendingReply(st.rooms, st.sessions[s])
  {
    if Background(step) {
      BackgroundKeepsRequests(st, step, s);
    } else if step.Acquire? || step.FanOne? || step.Unlock? {
      SectionKeepsPending(st, step, s);
    } else if step.Push? || step.Spawn? || step.Emplace? {
      JoinKeepsPending(st, step, s);
    } else {
      LeaveKeepsPending(st, step, s);
    }
  }

  /** A new room leaves the confirmations of other sessions as they are. */
  lemma CreateRoomKeepsOthers(st: State, p: nat, s: nat)
    requires Enabled(st, CreateRoom(p)) && s < |st.sessions| && s != p && SessionOk(st, s) && ReplyStream(st, s)
    ensures ReplyStream(DoCreateRoom(st, p), s)
  {
  }

  lemma QuietStepsKeepReplies(st: State, step: Step, s: nat)
    requires Enabled(st, step) && Quiet(step) && s < |st.sessions| && PcOk(st, s) && ReplyStream(st, s)
    ensures ReplyStream(Next(st, step), s)
  {
    QuietStepsWriteNothing(st, step, s);
    QuietStepsKeepPending(st, step, s);
  }

  lemma ReplyStepsKeepReplies(st: State, step: Step, s: nat)
    requires Enabled(st, step) && (step.Respond? || step.Reject?) && s < |st.sessions|
    requires SessionOk(st, s) && ReplyStream(st, s)
    ensures ReplyStream(Next(st, step), s)
  {
    if step.s == s {
      WriteKeepsReplies(st, Next(st, step), s, if step.Respond? then st.sessions[s].pc.wire else NOT_SUBSCRIBED);
    }
  }

  lemma ReplyStreamStays(st: State, step: Step, s: nat)
    requires Inv(st) && Ordered(st) && Enabled(st, step) && s < |Next(st, step).sessions|
    ensures ReplyStream(Next(st, step), s)
  {
    if s < |st.sessions| {
      assert SessionOk(st, s) && ReplyStream(st, s);
      if Quiet(step) {
        QuietStepsKeepReplies(st, step, s);
      } else if step.Respond? || step.Reject? {
        ReplyStepsKeepReplies(st, step, s);
      } else if step.ListenForward? {
        ForwardKeepsReplies(st, step.c, s);
      } else if step.Receive? && step.s == s {
        ReceiveReplies(st, s, step.line);
      } else if step.CreateRoom? && step.s == s {
        CreateRoomReplies(st, s);
      } else if step.CreateRoom? {
        CreateRoomKeepsOthers(st, step.s, s);
      }
    }
  }

  lemma NewcomerPostedNothing(log: seq<Entry>, s: nat)
    requires forall i :: 0 <= i < |log| ==> log[i].sender < s
    ensures TextsBy(log, s) == []
  {
  }

  lemma DispatchPendsPost(se: Session, line: Line, d: Decision, r: nat)
    ensures PendingPost(se.(pc := After(d, se.subs, line)), r) == PostFor(d, se.subs.Keys, r)
  {
  }

  lemma DispatchedPosts(keys: seq<Key>, se: Session, line: Line, d: Decision, r: nat)
    requires se.pc.Idle?
    ensures var se' := Dispatched(keys, se, line, d);
      PostsTo(se'.served, r) == PostsTo(se.served, r) + PendingPost(se', r)
  {
    DispatchPendsPost(se, line, d, r);
    if d.Create? {
      assert se.served + [] == se.served && PostsTo(se.served, r) + [] == PostsTo(se.served, r);
    } else {
      PostsTo1(se.served, Served(line, keys, se.subs.Keys, d), r);
    }
  }

  lemma ReceivePosts(st: State, s: nat, line: Line, r: nat)
    requires Enabled(st, Receive(s, line)) && PostStream(st, s, r)
    ensures PostStream(DoReceive(st, s, line), s, r)
  {
    var keys, se := Keys(st.rooms), st.sessions[s];
    DispatchedPosts(keys, se, line, Decide(keys, se.subs.Keys, line), r);
  }

  lemma CreateRoomPosts(st: State, s: nat, r: nat)
    requires Enabled(st, CreateRoom(s)) && ReplyStream(st, s) && PostStream(st, s, r)
    ensures PostStream(DoCreateRoom(st, s), s, r)
  {
    var se := st.sessions[s];
    PostsTo1(se.served, Served(se.pc.line, Keys(st.rooms), se.subs.Keys, Decision.Create(se.pc.name)), r);
  }

  lemma AcquirePosts(st: State, p: nat, s: nat, r: nat)
    requires Enabled(st, Acquire(p)) && s < |st.sessions| && PostStream(st, s, r)
    ensures PostStream(DoAcquire(st, p), s, r)
  {
    var pc := st.sessions[p].pc;
    assert (st.rooms[pc.room].log + [Entry(p, pc.text)])[..|st.rooms[pc.room].log|] == st.rooms[pc.room].log;
  }

  /** The other steps append to no log and serve no line. */
  lemma OthersPostNothing(st: State, step: Step, s: nat)
    requires Enabled(st, step) && !step.Receive? && !step.Acquire? && s < |st.sessions|
    requires step.CreateRoom? ==> step.s != s
    ensures Next(st, step).sessions[s].served == st.sessions[s].served
    ensures var st' := Next(st, step);
      |st.rooms| <= |st'.rooms| && (forall r :: 0 <= r < |st.rooms| ==> st'.rooms[r].log == st.rooms[r].log) &&
      (forall r :: |st.rooms| <= r < |st'.rooms| ==> st'.rooms[r].log == [])
  {
  }

  /** And no message becomes pending or ceases to be. */
  lemma OthersKeepPending(st: State, step: Step, s: nat, r: nat)
    requires Enabled(st, step) && !Background(step) && !step.Receive? && !step.Acquire? && s < |st.sessions|
    requires step.CreateRoom? ==> step.s != s
    requires PcOk(st, s)
    ensures PendingPost(Next(st, step).sessions[s], r) == PendingPost(st.sessions[s], r)
  {
  }

  lemma OthersKeepPosts(st: State, step: Step, s: nat, r: nat)
    requires Enabled(st, step) && !step.Receive? && !step.Acquire? && s < |st.sessions|
    requires step.CreateRoom? ==> step.s != s
    requires PcOk(st, s) && PostStream(st, s, r)
    ensures PostStream(Next(st, step), s, r)
  {
    OthersPostNothing(st, step, s);
    if Background(step) {
      BackgroundKeepsRequests(st, step, s);
    } else {
      OthersKeepPending(st, step, s, r);
    }
    assert Posted(Next(st, step).rooms, s, r) == Posted(st.rooms, s, r);
  }

  lemma PostStreamStays(st: State, step: Step, s: nat, r: nat)
    requires Inv(st) && Ordered(st) && Enabled(st, step) && s < |Next(st, step).sessions|
    ensures PostStream(Next(st, step), s, r)
  {
    if s == |st.sessions| {
      if r < |st.rooms| {
        NewcomerPostedNothing(st.rooms[r].log, s);
      }
    } else {
      assert SessionOk(st, s) && PostStream(st, s, r) && ReplyStream(st, s);
      if step.Receive? && step.s == s {
        ReceivePosts(st, s, step.line, r);
      } else if step.CreateRoom? && step.s == s {
        CreateRoomPosts(st, s, r);
      } else if step.Acquire? {
        AcquirePosts(st, step.s, s, r);
      } else if !step.Receive? {
        OthersKeepPosts(st, step, s, r);
      }
    }
  }

  lemma StepKeepsOrder(st: State, step: Step)
    requires Inv(st) && Ordered(st) && Enabled(st, step)
    ensures Ordered(Next(st, step))
  {
    var st' := Next(st, step);
    forall s | 0 <= s < |st'.sessions| ensures ReplyStream(st', s) { ReplyStreamStays(st, step, s); }
    forall s, r | 0 <= s < |st'.sessions| && 0 <= r ensures PostStream(st', s, r) { PostStreamStays(st, step, s, r); }
  }

  lemma {:induction false} ReachableOrdered(steps: seq<Step>)
    requires Runs(Init, steps)
    ensures Ordered(Run(Init, steps))
    decreases |steps|
  {
    if steps != [] {
      var before := steps[..|steps| - 1];
      ReachableOrdered(before);
      ReachableInv(before);
      StepKeepsOrder(Run(Init, before), steps[|steps| - 1]);
    }
  }
}
