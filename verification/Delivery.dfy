/**
 End-to-end delivery: from the room's log through the subscriber channel, the listener, the write
 channel and the writer to the socket, nothing is lost, duplicated, reordered or echoed.
 */
module Delivery {
  import opened Requests
  import opened Pipeline
  import opened Membership
  import AtomicBroadcast
  import opened Refinement

  /** What the listener of channel `c` forwarded among `frames`, in order. */
  function Forwarded(frames: seq<Frame>, c: nat): seq<Copy> {
    if frames == [] then []
    else
      var last := frames[|frames| - 1];
      Forwarded(frames[..|frames| - 1], c) +
      (if last.Forward? && last.chan == c && last.wire.Relay? then [Copy(last.at, last.wire.data)] else [])
  }

  lemma {:induction false} ForwardedConcat(xs: seq<Frame>, ys: seq<Frame>, c: nat)
    ensures Forwarded(xs + ys, c) == Forwarded(xs, c) + Forwarded(ys, c)
    decreases |ys|
  {
    if ys == [] {
      assert xs + ys == xs;
    } else {
      var ys' := ys[..|ys| - 1];
      ForwardedConcat(xs, ys', c);
      assert (xs + ys)[..|xs + ys| - 1] == xs + ys';
    }
  }

  lemma ForwardedConcat3(xs: seq<Frame>, ys: seq<Frame>, zs: seq<Frame>, c: nat)
    ensures Forwarded(xs + ys + zs, c) == Forwarded(xs, c) + (Forwarded(ys, c) + Forwarded(zs, c))
  {
    assert xs + ys + zs == xs + (ys + zs);
    ForwardedConcat(xs, ys + zs, c);
    ForwardedConcat(ys, zs, c);
  }

  /** The frame a writer has taken from its channel and not sent. */
  function Taken(w: WriterPc): seq<Frame> {
    match w
    case Fetching => []
    case Sending(f) => [f]
    case Stopped(lost) => lost
  }

  function InHand(pc: ListenerPc): seq<Copy> {
    match pc
    case InHand(x) => [x]
    case _ => []
  }

  /** Every frame the write channel accepted was sent, is in the writer's hand, or is still queued. */
  predicate Books(se: Session) {
    se.accepted == se.sent + Taken(se.writer) + se.out.queue
  }

  /** A frame in session `s` is a reply, or was forwarded by a listener of a channel of `s`. */
  predicate Tagged(st: State, s: nat, f: Frame) {
    if f.Reply? then !f.wire.Relay?
    else IsMember(st, f.chan) && st.members[f.chan].owner == s &&
         f.wire.Relay? && f.wire.grpName == st.rooms[st.members[f.chan].room].name
  }

  predicate SessionBooks(st: State, s: nat)
    requires s < |st.sessions|
  {
    && Books(st.sessions[s])
    && (forall f :: f in st.sessions[s].accepted ==> Tagged(st, s, f))
    && (st.sessions[s].pc.Answering? ==> !st.sessions[s].pc.wire.Relay?)
  }

  /** What a listener took from its channel it forwarded in order, or still holds. */
  predicate MemberBooks(st: State, c: nat)
    requires c < |st.members| && st.members[c].owner < |st.sessions|
  {
    var m, se := st.members[c], st.sessions[st.members[c].owner];
    var forwarded := Forwarded(se.accepted, c);
    && forwarded <= m.taken
    && (!se.out.closed ==> forwarded + InHand(m.pc) == m.taken)
  }

  predicate Balanced(st: State) {
    && (forall s :: 0 <= s < |st.sessions| ==> SessionBooks(st, s))
    && (forall c :: 0 <= c < |st.members| ==> st.members[c].owner < |st.sessions| && MemberBooks(st, c))
  }

  lemma DecisionsReply(keys: seq<Key>, subs: set<nat>, line: Line)
    ensures Decide(keys, subs, line).Answer? ==> Decide(keys, subs, line).wire.Plain?
  {
  }

  /** Ids, names and labels never change, so a tag stays correct. */
  lemma TagStays(st: State, step: Step, s: nat, f: Frame)
    requires Enabled(st, step) && Tagged(st, s, f)
    ensures Tagged(Next(st, step), s, f)
  {
  }

  lemma BooksStay(st: State, step: Step, s: nat)
    requires Enabled(st, step) && s < |st.sessions| && Books(st.sessions[s])
    ensures Books(Next(st, step).sessions[s])
  {
  }

  /** The frame a step puts into the write channel of session `s`, if it puts one there. */
  function Emission(st: State, step: Step, s: nat): seq<Frame>
    requires Enabled(st, step) && Has(st, s)
  {
    if st.sessions[s].out.closed then []
    else match step
      case Respond(p) => if p == s then [Reply(st.sessions[s].pc.wire)] else []
      case Reject(p) => if p == s then [Reply(NOT_SUBSCRIBED)] else []
      case ListenForward(c) =>
        var m := st.members[c];
        if m.owner == s then [Forward(c, m.pc.copy.at, Relay(m.pc.copy.text, st.rooms[m.room].name))] else []
      case _ => []
  }

  lemma AcceptedGrows(st: State, step: Step, s: nat)
    requires Enabled(st, step) && Has(st, s)
    ensures Next(st, step).sessions[s].accepted == st.sessions[s].accepted + Emission(st, step, s)
  {
    assert st.sessions[s].accepted + [] == st.sessions[s].accepted;
  }

  lemma EmissionIsTagged(st: State, step: Step, s: nat, f: Frame)
    requires Enabled(st, step) && Has(st, s) && f in Emission(st, step, s)
    requires st.sessions[s].pc.Answering? ==> !st.sessions[s].pc.wire.Relay?
    ensures Tagged(st, s, f)
  {
  }

  /** A session answers with no relayed message. */
  lemma AnswersStayPlain(st: State, step: Step, s: nat)
    requires Enabled(st, step) && Has(st, s)
    requires st.sessions[s].pc.Answering? ==> !st.sessions[s].pc.wire.Relay?
    ensures var pc := Next(st, step).sessions[s].pc; pc.Answering? ==> !pc.wire.Relay?
  {
    if step.Receive? {
      DecisionsReply(Keys(st.rooms), st.sessions[step.s].subs.Keys, step.line);
    }
  }

  lemma SessionBooksStay(st: State, step: Step, s: nat)
    requires Enabled(st, step) && Has(st, s) && SessionBooks(st, s)
    ensures SessionBooks(Next(st, step), s)
  {
    BooksStay(st, step, s);
    AnswersStayPlain(st, step, s);
    AcceptedGrows(st, step, s);
    forall f | f in Next(st, step).sessions[s].accepted ensures Tagged(Next(st, step), s, f) {
      if f !in st.sessions[s].accepted {
        EmissionIsTagged(st, step, s, f);
      }
      TagStays(st, step, s, f);
    }
  }

  lemma NewSessionBooks(st: State, step: Step, s: nat)
    requires Enabled(st, step) && |st.sessions| <= s < |Next(st, step).sessions|
    ensures SessionBooks(Next(st, step), s)
  {
  }

  lemma EmitForwards(se: Session, f: Frame, c: nat)
    ensures Forwarded(Emit(se, f).accepted, c) ==
            Forwarded(se.accepted, c) + (if se.out.closed then [] else Forwarded([f], c))
  {
    ForwardedConcat(se.accepted, [f], c);
  }

  lemma {:induction false} NothingForwarded(frames: seq<Frame>, c: nat)
    requires forall f :: f in frames && f.Forward? ==> f.chan != c
    ensures Forwarded(frames, c) == []
    decreases |frames|
  {
    if frames != [] {
      NothingForwarded(frames[..|frames| - 1], c);
    }
  }

  /** The steps that write to a write channel. */
  predicate Emits(step: Step) {
    step.Respond? || step.Reject? || step.ListenForward?
  }

  /** The steps of a listener up to the forwarding. */
  predicate Listens(step: Step) {
    step.ListenTop? || step.ListenCheck? || step.ListenPoll? || step.ListenPark?
  }

  lemma ReplyKeepsMemberBooks(st: State, st': State, s: nat, wire: Wire, c: nat)
    requires Has(st, s) && IsMember(st, c) && MemberBooks(st, c)
    requires st'.members == st.members && |st'.sessions| == |st.sessions|
    requires st.members[c].owner != s ==> st'.sessions[st.members[c].owner] == st.sessions[st.members[c].owner]
    requires st'.sessions[s].accepted == Emit(st.sessions[s], Reply(wire)).accepted
    requires st'.sessions[s].out == Emit(st.sessions[s], Reply(wire)).out
    ensures MemberBooks(st', c)
  {
    EmitForwards(st.sessions[s], Reply(wire), c);
  }

  /** The listener that forwards. */
  lemma OwnForwardKeeps(st: State, c: nat)
    requires Enabled(st, ListenForward(c)) && MemberBooks(st, c)
    ensures MemberBooks(DoListenForward(st, c), c)
  {
    var m := st.members[c];
    var frame := Forward(c, m.pc.copy.at, Relay(m.pc.copy.text, st.rooms[m.room].name));
    EmitForwards(st.sessions[m.owner], frame, c);
    ForwardedOne(frame, c);
  }

  lemma ForwardKeepsMemberBooks(st: State, k: nat, c: nat)
    requires Enabled(st, ListenForward(k)) && IsMember(st, c) && MemberBooks(st, c)
    ensures MemberBooks(DoListenForward(st, k), c)
  {
    if c == k {
      OwnForwardKeeps(st, c);
    } else if st.members[c].owner == st.members[k].owner {
      var m := st.members[k];
      var frame := Forward(k, m.pc.copy.at, Relay(m.pc.copy.text, st.rooms[m.room].name));
      EmitForwards(st.sessions[m.owner], frame, c);
      ForwardedOne(frame, c);
    }
  }

  lemma ForwardedOne(f: Frame, c: nat)
    ensures Forwarded([f], c) == if f.Forward? && f.chan == c && f.wire.Relay? then [Copy(f.at, f.wire.data)] else []
  {
    assert Forwarded([f][..0], c) == [];
  }

  lemma ListenerKeepsMemberBooks(st: State, step: Step, c: nat)
    requires Enabled(st, step) && Listens(step) && IsMember(st, c) && MemberBooks(st, c)
    ensures MemberBooks(Next(st, step), c)
  {
  }

  lemma PushKeepsMemberBooks(st: State, s: nat, c: nat)
    requires Inv(st) && Balanced(st) && Enabled(st, Push(s)) && c <= |st.members|
    ensures MemberBooks(DoPush(st, s), c)
  {
    if c < |st.members| {
      assert MemberBooks(st, c);
    } else {
      assert SessionBooks(st, s);
      NothingForwarded(st.sessions[s].accepted, c);
    }
  }

  /** The other steps leave what listeners have taken and forwarded as it is. */
  lemma OthersKeepMemberBooks(st: State, step: Step, c: nat)
    requires Enabled(st, step) && !Emits(step) && !step.Push? && !Listens(step)
    requires c < |st.members| && MemberOk(st, c) && MemberBooks(st, c)
    requires step.Spawn? ==> SessionOk(st, step.s)
    ensures MemberBooks(Next(st, step), c)
  {
    OthersLeaveListeners(st, step, c);
    OthersLeaveOutputs(st, step, st.members[c].owner);
  }

  lemma OthersLeaveListeners(st: State, step: Step, c: nat)
    requires Enabled(st, step) && !Emits(step) && !step.Push? && !Listens(step)
    requires c < |st.members| && MemberOk(st, c)
    requires step.Spawn? ==> SessionOk(st, step.s)
    ensures var m, m' := st.members[c], Next(st, step).members[c];
      m'.owner == m.owner && m'.taken == m.taken && InHand(m'.pc) == InHand(m.pc)
  {
  }

  lemma OthersLeaveOutputs(st: State, step: Step, s: nat)
    requires Enabled(st, step) && !Emits(step) && Has(st, s)
    ensures Has(Next(st, step), s) && Next(st, step).sessions[s].accepted == st.sessions[s].accepted
    ensures st.sessions[s].out.closed ==> Next(st, step).sessions[s].out.closed
  {
  }

  lemma EmitKeepsMemberBooks(st: State, step: Step, c: nat)
    requires Enabled(st, step) && Emits(step) && IsMember(st, c) && MemberBooks(st, c)
    ensures MemberBooks(Next(st, step), c)
  {
    match step
    case Respond(s) => ReplyKeepsMemberBooks(st, Next(st, step), s, st.sessions[s].pc.wire, c);
    case Reject(s) => ReplyKeepsMemberBooks(st, Next(st, step), s, NOT_SUBSCRIBED, c);
    case ListenForward(k) => ForwardKeepsMemberBooks(st, k, c);
  }

  lemma MemberBooksStay(st: State, step: Step, c: nat)
    requires Inv(st) && Balanced(st) && Enabled(st, step) && c < |Next(st, step).members|
    ensures Next(st, step).members[c].owner < |Next(st, step).sessions| && MemberBooks(Next(st, step), c)
  {
    if c < |st.members| {
      assert MemberOk(st, c) && MemberBooks(st, c);
    }
    if Listens(step) {
      ListenerKeepsMemberBooks(st, step, c);
    } else if Emits(step) {
      EmitKeepsMemberBooks(st, step, c);
    } else if step.Push? {
      PushKeepsMemberBooks(st, step.s, c);
    } else {
      assert step.Spawn? ==> SessionOk(st, step.s);
      OthersKeepMemberBooks(st, step, c);
    }
  }

  lemma StepKeepsBalance(st: State, step: Step)
    requires Inv(st) && Balanced(st) && Enabled(st, step)
    ensures Balanced(Next(st, step))
  {
    var st' := Next(st, step);
    forall s | 0 <= s < |st'.sessions| ensures SessionBooks(st', s) {
      if s < |st.sessions| { SessionBooksStay(st, step, s); } else { NewSessionBooks(st, step, s); }
    }
    forall c | 0 <= c < |st'.members|
      ensures st'.members[c].owner < |st'.sessions| && MemberBooks(st', c)
    {
      MemberBooksStay(st, step, c);
    }
  }

  lemma {:induction false} ReachableBalanced(steps: seq<Step>)
    requires Runs(Init, steps)
    ensures Balanced(Run(Init, steps))
    decreases |steps|
  {
    if steps != [] {
      var before := steps[..|steps| - 1];
      ReachableBalanced(before);
      ReachableInv(before);
      StepKeepsBalance(Run(Init, before), steps[|steps| - 1]);
    }
  }

  // ---------------------------------------------------------------------------
  // Conservation
  // ---------------------------------------------------------------------------

  /** What channel `c` is owed: its room's log from the join on, without its owner's messages. */
  function Owed(st: State, c: nat): seq<Copy>
    requires IsMember(st, c)
  {
    AtomicBroadcast.Owed(st.rooms[st.members[c].room].log, st.members[c].joined, st.members[c].owner)
  }

  /** The room messages of channel `c` that reached the socket of its session. */
  function Received(st: State, c: nat): seq<Copy>
    requires IsMember(st, c)
  {
    Forwarded(st.sessions[st.members[c].owner].sent, c)
  }

  /** All that is between the room and the socket on behalf of channel `c`. */
  function InTransit(st: State, c: nat): seq<Copy>
    requires IsMember(st, c)
  {
    var m, se := st.members[c], st.sessions[st.members[c].owner];
    Forwarded(Taken(se.writer), c) + Forwarded(se.out.queue, c) + InHand(m.pc) + m.ch.queue
  }

  /** All invariants of a reachable state together. */
  ghost predicate Good(st: State) {
    Inv(st) && Balanced(st) && AtomicBroadcast.AllSettled(View(st))
  }

  lemma StepKeepsGood(st: State, step: Step)
    requires Good(st) && Enabled(st, step)
    ensures Good(Next(st, step))
  {
    StepKeepsInv(st, step);
    StepKeepsBalance(st, step);
    StepRefines(st, step);
    AtomicBroadcast.ActKeepsSettled(View(st), Meaning(st, step));
  }

  lemma Reachable(steps: seq<Step>)
    requires Runs(Init, steps)
    ensures Good(Run(Init, steps))
  {
    ReachableInv(steps);
    ReachableBalanced(steps);
    ReachableSettled(steps);
  }

  /** The listener took what it was owed, up to what is still queued or pending. */
  lemma TakenIsOwed(st: State, c: nat)
    requires Good(st) && c < |st.members|
    ensures IsMember(st, c)
    ensures st.members[c].taken + st.members[c].ch.queue <= Owed(st, c)
    ensures !st.members[c].ch.closed ==>
      st.members[c].taken + st.members[c].ch.queue + Pending(st.members[c], LockOf(st, st.members[c].room)) ==
      Owed(st, c)
  {
    assert MemberOk(st, c);
    assert AtomicBroadcast.Settled(View(st), c);
    var m, pending := st.members[c], Pending(st.members[c], LockOf(st, st.members[c].room));
    assert View(st).subscribers[c] == Abstract(m, LockOf(st, m.room));
    assert m.taken + m.ch.queue + pending == m.taken + (m.ch.queue + pending);
  }

  /** What the listener forwarded was received, or is with the writer. */
  lemma ForwardedSplits(st: State, c: nat)
    requires Good(st) && c < |st.members|
    ensures IsMember(st, c)
    ensures var se := st.sessions[st.members[c].owner];
      Forwarded(se.accepted, c) ==
      Received(st, c) + (Forwarded(Taken(se.writer), c) + Forwarded(se.out.queue, c))
  {
    assert MemberOk(st, c);
    var se := st.sessions[st.members[c].owner];
    assert SessionBooks(st, st.members[c].owner);
    ForwardedConcat3(se.sent, Taken(se.writer), se.out.queue, c);
  }

  lemma ReceivedIsPrefixAt(st: State, c: nat)
    requires Good(st) && c < |st.members|
    ensures IsMember(st, c) && Received(st, c) <= Owed(st, c)
  {
    TakenIsOwed(st, c);
    ForwardedSplits(st, c);
    assert MemberBooks(st, c);
  }

  lemma ConservationAt(st: State, c: nat)
    requires Good(st) && c < |st.members| && !st.members[c].ch.closed
    ensures IsMember(st, c)
    ensures Received(st, c) + InTransit(st, c) + Pending(st.members[c], LockOf(st, st.members[c].room)) == Owed(st, c)
  {
    TakenIsOwed(st, c);
    ForwardedSplits(st, c);
    assert MemberBooks(st, c) && MemberOk(st, c) && SessionOk(st, st.members[c].owner);
    var m, se := st.members[c], st.sessions[st.members[c].owner];
    Regroup(Received(st, c), Forwarded(Taken(se.writer), c), Forwarded(se.out.queue, c), InHand(m.pc), m.ch.queue,
            Pending(m, LockOf(st, m.room)));
  }

  lemma Regroup(a: seq<Copy>, b: seq<Copy>, c: seq<Copy>, d: seq<Copy>, e: seq<Copy>, f: seq<Copy>)
    ensures a + (b + c + d + e) + f == a + (b + c) + d + e + f
  {
  }

  /** Frames sent for a room are always a prefix of what is owed, in every run. */
  lemma ReceivedIsPrefix(steps: seq<Step>, c: nat)
    requires Runs(Init, steps) && c < |Run(Init, steps).members|
    ensures var st := Run(Init, steps);
      IsMember(st, c) && Received(st, c) <= Owed(st, c)
  {
    Reachable(steps);
    ReceivedIsPrefixAt(Run(Init, steps), c);
  }

  /**
   While a channel is open, what it has received, what is in transit, and what a running fan-out still
   has to write to it are together exactly what it is owed. Between fan-outs the last part is empty.
   */
  lemma Conservation(steps: seq<Step>, c: nat)
    requires Runs(Init, steps) && c < |Run(Init, steps).members| && !Run(Init, steps).members[c].ch.closed
    ensures var st := Run(Init, steps);
      IsMember(st, c) &&
      Received(st, c) + InTransit(st, c) + Pending(st.members[c], LockOf(st, st.members[c].room)) == Owed(st, c)
  {
    Reachable(steps);
    ConservationAt(Run(Init, steps), c);
  }
}
