/**
 Three concrete runs. Client 0 creates a room, client 1 subscribes to it, and client 0 posts "hi". In the first run
 client 1 leaves before the fan-out reaches it; in the second the message arrives in its list; in the third its
 listener misses the wake-up, and the server comes to rest with the message undelivered.
 */
module Scenario {
  import opened Common
  import opened ChannelModel
  import opened Requests
  import opened RequestLaws
  import opened Pipeline
  import AtomicBroadcast
  import Refinement
  import opened Delivery
  import opened Network
  import opened ClientModel
  import ClientViews
  import opened Compose
  import Drain

  const CSUB := Fields(map["type" := Json.Text("csub"), "grp_name" := Json.Text("a")])
  const SUB := Fields(map["type" := Json.Text("sub"), "grp" := Signed(1)])
  const MSG := Fields(map["type" := Json.Text("msg"), "grp" := Signed(1), "msg" := Json.Text("hi")])

  const KEY := Key(1, "a")
  const CREATED := Reply(CsubOk(1, "a"))
  const JOINED := Reply(SubOk(1, "a"))
  const HI := Copy(0, "hi")
  const RELAYED := Forward(1, 0, Relay("hi", "a"))

  lemma {:induction false} PlainCStr(s: string)
    requires '\0' !in s
    ensures CStr(s) == s
    decreases |s|
  {
    if s != "" {
      PlainCStr(s[1..]);
    }
  }

  lemma CsubCreates()
    ensures Decide([], {}, CSUB) == Decision.Create("a")
  {
    PlainCStr("csub");
    CreatesIff([], {}, CSUB, "a");
  }

  lemma SubJoins()
    ensures Decide([KEY], {}, SUB) == Join(0)
  {
    PlainCStr("sub");
    JoinsIff([KEY], {}, SUB, 0);
  }

  lemma MsgPosts()
    ensures Decide([KEY], {0}, MSG) == Post(0, "hi")
  {
    PlainCStr("msg");
    PostsIff([KEY], {0}, MSG, 0, "hi");
  }

  /** A step from one state to another. */
  predicate Hop(before: State, step: Step, after: State) {
    Enabled(before, step) &&
    Next(before, step).rooms == after.rooms && Next(before, step).members == after.members &&
    Next(before, step).sessions == after.sessions
  }

  lemma Go(steps: seq<Step>, before: State, step: Step, after: State) returns (more: seq<Step>)
    requires Runs(Init, steps) && Run(Init, steps) == before && Hop(before, step, after)
    ensures Runs(Init, more) && Run(Init, more) == after
  {
    more := steps + [step];
    assert more[..|steps|] == steps;
  }

  // ---------------------------------------------------------------------------
  // Client 0 creates the room
  // ---------------------------------------------------------------------------

  const CREATING := Served(CSUB, [], {}, Decision.Create("a"))

  function Created(room: Room, m: Member, pc: SessionPc, subs: map<nat, nat>): State {
    State([room], [m], [NewSession.(pc := pc, subs := subs, served := [CREATING]), NewSession])
  }

  const MEMBER0 := Member(0, 0, 0, 0, Fresh<Copy>(), Top, [])
  const CREATOR := Session(Idle, map[0 := 0], Chan([CREATED], false, Polling), Fetching, [CREATED], [], [CREATING])
  const ALONE := Room(1, "a", [0], Free, [])
  const OPENED := State([ALONE], [MEMBER0], [CREATOR, NewSession])

  const READING := State([], [], [NewSession.(pc := Creating("a", CSUB)), NewSession])
  const JOINING0 := State([Room(1, "a", [], Free, [])], [],
                          [NewSession.(pc := Joining(0, true), served := [CREATING]), NewSession])

  lemma HopToReading()
    ensures Hop(State([], [], [NewSession, NewSession]), Receive(0, CSUB), READING)
  {
    CsubCreates();
    assert Keys([]) == [] && NewSession.subs.Keys == {} && NewSession.served + [] == NewSession.served;
  }

  lemma HopToJoining()
    ensures Hop(READING, CreateRoom(0), JOINING0)
  {
    assert Keys([]) == [] && NewSession.subs.Keys == {} && NewSession.served + [CREATING] == [CREATING];
  }

  lemma HopToPushed()
    ensures Hop(JOINING0, Push(0), Created(ALONE, MEMBER0.(pc := Unspawned), Pushed(0, 0, true), map[]))
  {
    assert JOINING0.rooms[0].connections + [0] == [0];
  }

  lemma HopsToConfirmation()
    ensures Hop(Created(ALONE, MEMBER0.(pc := Unspawned), Pushed(0, 0, true), map[]), Spawn(0),
                Created(ALONE, MEMBER0, Spawned(0, 0, true), map[]))
    ensures Hop(Created(ALONE, MEMBER0, Spawned(0, 0, true), map[]), Emplace(0),
                Created(ALONE, MEMBER0, Answering(CsubOk(1, "a")), map[0 := 0]))
    ensures Hop(Created(ALONE, MEMBER0, Answering(CsubOk(1, "a")), map[0 := 0]), Respond(0), OPENED)
  {
    assert NewSession.out.queue + [CREATED] == [CREATED] && NewSession.accepted + [CREATED] == [CREATED];
  }

  lemma RoomOpens() returns (steps: seq<Step>)
    ensures Runs(Init, steps) && Run(Init, steps) == OPENED
  {
    HopToReading();
    HopToJoining();
    HopToPushed();
    HopsToConfirmation();
    steps := Go([], Init, Accept, State([], [], [NewSession]));
    steps := Go(steps, State([], [], [NewSession]), Accept, State([], [], [NewSession, NewSession]));
    steps := Go(steps, State([], [], [NewSession, NewSession]), Receive(0, CSUB), READING);
    steps := Go(steps, READING, CreateRoom(0), JOINING0);
    var pushed := Created(ALONE, MEMBER0.(pc := Unspawned), Pushed(0, 0, true), map[]);
    steps := Go(steps, JOINING0, Push(0), pushed);
    var spawned := Created(ALONE, MEMBER0, Spawned(0, 0, true), map[]);
    steps := Go(steps, pushed, Spawn(0), spawned);
    var answering := Created(ALONE, MEMBER0, Answering(CsubOk(1, "a")), map[0 := 0]);
    steps := Go(steps, spawned, Emplace(0), answering);
    steps := Go(steps, answering, Respond(0), OPENED);
  }

  // ---------------------------------------------------------------------------
  // Client 1 subscribes, and client 0 posts
  // ---------------------------------------------------------------------------

  const JOINING := Served(SUB, [KEY], {}, Join(0))
  const POSTING := Served(MSG, [KEY], {0}, Post(0, "hi"))

  function Subscribing(pc: SessionPc, subs: map<nat, nat>): Session {
    NewSession.(pc := pc, subs := subs, served := [JOINING])
  }

  const READER := Session(Idle, map[0 := 1], Chan([JOINED], false, Polling), Fetching, [JOINED], [], [JOINING])

  function Poster(pc: SessionPc): Session {
    CREATOR.(pc := pc, served := [CREATING, POSTING])
  }

  const MEMBER1 := Member(1, 0, 1, 0, Fresh<Copy>(), Top, [])

  function Both(lock: Lock, log: seq<Entry>, m: Member, poster: Session, reader: Session): State {
    State([Room(1, "a", [0, 1], lock, log)], [MEMBER0, m], [poster, reader])
  }

  const JOINING1 := State([ALONE], [MEMBER0], [CREATOR, Subscribing(Joining(0, false), map[])])
  const PUSHED1 := Both(Free, [], MEMBER1.(pc := Unspawned), CREATOR, Subscribing(Pushed(0, 1, false), map[]))
  const SPAWNED1 := Both(Free, [], MEMBER1, CREATOR, Subscribing(Spawned(0, 1, false), map[]))
  const ANSWERING1 := Both(Free, [], MEMBER1, CREATOR, Subscribing(Answering(SubOk(1, "a")), map[0 := 1]))
  const MEETING := Both(Free, [], MEMBER1, CREATOR, READER)
  const POSTED := Both(Free, [], MEMBER1, Poster(Posting(0, "hi")), READER)
  const FANNING := Both(Fan(0, HI, 0), [Entry(0, "hi")], MEMBER1, Poster(Fanning(0)), READER)

  lemma HopToJoining1()
    ensures Hop(OPENED, Receive(1, SUB), JOINING1)
  {
    SubJoins();
    assert Keys([ALONE]) == [KEY] && NewSession.subs.Keys == {} && NewSession.served + [JOINING] == [JOINING];
  }

  lemma HopToPushed1()
    ensures Hop(JOINING1, Push(1), PUSHED1)
  {
    assert ALONE.connections + [1] == [0, 1];
  }

  lemma HopsToMeeting()
    ensures Hop(PUSHED1, Spawn(1), SPAWNED1)
    ensures Hop(SPAWNED1, Emplace(1), ANSWERING1)
    ensures Hop(ANSWERING1, Respond(1), MEETING)
  {
    assert NewSession.out.queue + [JOINED] == [JOINED] && NewSession.accepted + [JOINED] == [JOINED];
  }

  lemma HopToPosted()
    ensures Hop(MEETING, Receive(0, MSG), POSTED)
  {
    MsgPosts();
    assert Keys(MEETING.rooms) == [KEY] && CREATOR.subs.Keys == {0};
    assert [CREATING] + [POSTING] == [CREATING, POSTING];
  }

  lemma HopToFanning()
    ensures Hop(POSTED, Acquire(0), FANNING)
  {
    assert POSTED.rooms[0].log + [Entry(0, "hi")] == [Entry(0, "hi")];
  }

  lemma FanOutBegins() returns (steps: seq<Step>)
    ensures Runs(Init, steps) && Run(Init, steps) == FANNING
  {
    HopToJoining1();
    HopToPushed1();
    HopsToMeeting();
    HopToPosted();
    HopToFanning();
    steps := RoomOpens();
    steps := Go(steps, OPENED, Receive(1, SUB), JOINING1);
    steps := Go(steps, JOINING1, Push(1), PUSHED1);
    steps := Go(steps, PUSHED1, Spawn(1), SPAWNED1);
    steps := Go(steps, SPAWNED1, Emplace(1), ANSWERING1);
    steps := Go(steps, ANSWERING1, Respond(1), MEETING);
    steps := Go(steps, MEETING, Receive(0, MSG), POSTED);
    steps := Go(steps, POSTED, Acquire(0), FANNING);
  }

  // ---------------------------------------------------------------------------
  // A close overtakes the fan-out
  // ---------------------------------------------------------------------------

  const LEAVING := Both(Fan(0, HI, 0), [Entry(0, "hi")], MEMBER1, Poster(Fanning(0)), READER.(pc := Closing({0})))

  lemma HopToLeaving()
    ensures Hop(FANNING, Hangup(1), LEAVING)
  {
    assert READER.subs.Keys == {0};
  }

  /** Client 1 leaves between the broadcast and its turn in the loop, and misses a message it was owed. */
  lemma CloseOvertakesFanOut() returns (steps: seq<Step>)
    ensures Runs(Init, steps) && Enabled(Run(Init, steps), CloseOne(1, 0))
    ensures Refinement.Meaning(Run(Init, steps), CloseOne(1, 0)) == AtomicBroadcast.Close(1, true)
    ensures var st := Next(Run(Init, steps), CloseOne(1, 0));
      IsMember(st, 1) && st.members[1].ch.closed && st.members[1].taken + st.members[1].ch.queue == [] &&
      Owed(st, 1) == [HI]
  {
    HopToLeaving();
    steps := FanOutBegins();
    steps := Go(steps, FANNING, Hangup(1), LEAVING);
    OwedHi([Entry(0, "hi")]);
  }

  lemma OwedHi(log: seq<Entry>)
    requires log == [Entry(0, "hi")]
    ensures AtomicBroadcast.Owed(log, 0, 1) == [HI]
  {
    assert AtomicBroadcast.Owed(log[..0], 0, 1) == [];
  }

  // ---------------------------------------------------------------------------
  // The message arrives
  // ---------------------------------------------------------------------------

  function MidFanOut(next: nat, m: Member): State {
    Both(Fan(0, HI, next), [Entry(0, "hi")], m, Poster(Fanning(0)), READER)
  }

  /** After the fan-out client 0 is idle again. */
  function Relaying(m: Member, reader: Session): State {
    Both(Free, [Entry(0, "hi")], m, Poster(Idle), reader)
  }

  function Got(queue: seq<Copy>, reader: Reader, pc: ListenerPc, taken: seq<Copy>): Member {
    Member(1, 0, 1, 0, Chan(queue, false, reader), pc, taken)
  }

  function Writing(queue: seq<Frame>, reader: Reader, writer: WriterPc, sent: seq<Frame>): Session {
    Session(Idle, map[0 := 1], Chan(queue, false, reader), writer, [JOINED, RELAYED], sent, [JOINING])
  }

  const HANDED := Got([], Away, Top, [HI])
  const RECEIVED := Relaying(HANDED, Writing([], Polling, Fetching, [JOINED, RELAYED]))

  lemma HopsOfFanOut()
    ensures Hop(FANNING, FanOne(0), MidFanOut(1, MEMBER1))
    ensures Hop(MidFanOut(1, MEMBER1), FanOne(0), MidFanOut(2, Got([HI], Away, Top, [])))
    ensures Hop(MidFanOut(2, Got([HI], Away, Top, [])), Unlock(0), Relaying(Got([HI], Away, Top, []), READER))
  {
    assert MEMBER1.ch.queue + [HI] == [HI];
  }

  lemma HopsOfListener()
    ensures Hop(Relaying(Got([HI], Away, Top, []), READER), ListenTop(1), Relaying(Got([HI], Away, Locked, []), READER))
    ensures Hop(Relaying(Got([HI], Away, Locked, []), READER), ListenCheck(1),
                Relaying(Got([HI], Polling, Reading, []), READER))
  {
  }

  lemma HopToInHand()
    ensures Hop(Relaying(Got([HI], Polling, Reading, []), READER), ListenPoll(1, true),
                Relaying(Got([], Away, InHand(HI), [HI]), READER))
  {
    assert [HI][1..] == [] && [] + [HI] == [HI];
  }

  lemma HopToRelayed()
    ensures Hop(Relaying(Got([], Away, InHand(HI), [HI]), READER), ListenForward(1),
                Relaying(HANDED, Writing([JOINED, RELAYED], Polling, Fetching, [])))
  {
    assert [JOINED] + [RELAYED] == [JOINED, RELAYED];
  }

  lemma HopToSending()
    ensures Hop(Relaying(HANDED, Writing([JOINED, RELAYED], Polling, Fetching, [])), WritePoll(1, true),
                Relaying(HANDED, Writing([RELAYED], Away, Sending(JOINED), [])))
  {
    assert [JOINED, RELAYED][1..] == [RELAYED];
  }

  lemma HopToSent()
    ensures Hop(Relaying(HANDED, Writing([RELAYED], Away, Sending(JOINED), [])), WriteSend(1),
                Relaying(HANDED, Writing([RELAYED], Polling, Fetching, [JOINED])))
  {
    assert [] + [JOINED] == [JOINED];
  }

  lemma HopToSendingRelay()
    ensures Hop(Relaying(HANDED, Writing([RELAYED], Polling, Fetching, [JOINED])), WritePoll(1, true),
                Relaying(HANDED, Writing([], Away, Sending(RELAYED), [JOINED])))
  {
    assert [RELAYED][1..] == [];
  }

  lemma HopToReceived()
    ensures Hop(Relaying(HANDED, Writing([], Away, Sending(RELAYED), [JOINED])), WriteSend(1), RECEIVED)
  {
    assert [JOINED] + [RELAYED] == [JOINED, RELAYED];
  }

  lemma ListenerRelays() returns (steps: seq<Step>)
    ensures Runs(Init, steps) && Run(Init, steps) == Relaying(HANDED, Writing([JOINED, RELAYED], Polling, Fetching, []))
  {
    HopsOfFanOut();
    HopsOfListener();
    HopToInHand();
    HopToRelayed();
    steps := FanOutBegins();
    steps := Go(steps, FANNING, FanOne(0), MidFanOut(1, MEMBER1));
    steps := Go(steps, MidFanOut(1, MEMBER1), FanOne(0), MidFanOut(2, Got([HI], Away, Top, [])));
    steps := Go(steps, MidFanOut(2, Got([HI], Away, Top, [])), Unlock(0), Relaying(Got([HI], Away, Top, []), READER));
    steps := Go(steps, Relaying(Got([HI], Away, Top, []), READER), ListenTop(1),
                Relaying(Got([HI], Away, Locked, []), READER));
    steps := Go(steps, Relaying(Got([HI], Away, Locked, []), READER), ListenCheck(1),
                Relaying(Got([HI], Polling, Reading, []), READER));
    steps := Go(steps, Relaying(Got([HI], Polling, Reading, []), READER), ListenPoll(1, true),
                Relaying(Got([], Away, InHand(HI), [HI]), READER));
    steps := Go(steps, Relaying(Got([], Away, InHand(HI), [HI]), READER), ListenForward(1),
                Relaying(HANDED, Writing([JOINED, RELAYED], Polling, Fetching, [])));
  }

  lemma MessageArrives() returns (steps: seq<Step>)
    ensures Runs(Init, steps) && Run(Init, steps) == RECEIVED
  {
    HopToSending();
    HopToSent();
    HopToSendingRelay();
    HopToReceived();
    steps := ListenerRelays();
    steps := Go(steps, Relaying(HANDED, Writing([JOINED, RELAYED], Polling, Fetching, [])), WritePoll(1, true),
                Relaying(HANDED, Writing([RELAYED], Away, Sending(JOINED), [])));
    steps := Go(steps, Relaying(HANDED, Writing([RELAYED], Away, Sending(JOINED), [])), WriteSend(1),
                Relaying(HANDED, Writing([RELAYED], Polling, Fetching, [JOINED])));
    steps := Go(steps, Relaying(HANDED, Writing([RELAYED], Polling, Fetching, [JOINED])), WritePoll(1, true),
                Relaying(HANDED, Writing([], Away, Sending(RELAYED), [JOINED])));
    steps := Go(steps, Relaying(HANDED, Writing([], Away, Sending(RELAYED), [JOINED])), WriteSend(1), RECEIVED);
  }

  // ---------------------------------------------------------------------------
  // Client 1 handles it
  // ---------------------------------------------------------------------------

  const OPS: seq<Op> :=
    [DoConnect, OnEvent(Connected), DoSubscribe(Some(1)), OnEvent(RoomConfirmed(1, "a", false)),
     OnEvent(Message("a", "hi"))]

  const OPENING := ChatMessage(1, SubscribedText(1), System)
  const SUBSCRIBED := Client([ChatRoom(1, Placeholder(1), 0)], [OPENING], None, true)
  const CONFIRMED := Client([ChatRoom(1, "a", 0)], [OPENING], None, true)
  const HEARD := Client([ChatRoom(1, "a", 1)], [OPENING, ChatMessage(1, "hi", Server)], None, true)

  lemma ClientRuns()
    ensures DoAll(OPS[..1]) == Client([], [], None, true) && DoAll(OPS[..2]) == Client([], [], None, true)
    ensures DoAll(OPS[..3]) == SUBSCRIBED
    ensures DoAll(OPS[..4]) == CONFIRMED
    ensures DoAll(OPS) == HEARD
  {
    assert OPS[..1] == [DoConnect] && OPS[..2][..1] == OPS[..1];
    assert OPS[..3][..2] == OPS[..2];
    assert OPS[..4][..3] == OPS[..3];
    assert OPS[..5] == OPS && OPS[..5][..4] == OPS[..4];
  }

  /** Operations that ask for nothing and re-key nothing. */
  predicate Harmless(op: Op) {
    op.DoConnect? || op.DoSubscribe? || (op.OnEvent? && !(op.e.RoomConfirmed? && op.e.isCreate))
  }

  lemma {:induction false} HarmlessIsTidy(ops: seq<Op>)
    requires forall i :: 0 <= i < |ops| ==> Harmless(ops[i])
    ensures ClientViews.Tidy(ops)
    decreases |ops|
  {
    if ops != [] {
      HarmlessIsTidy(ops[..|ops| - 1]);
    }
  }

  lemma EventsArrive()
    ensures Arrived(OPS[..3]) == [Connected]
    ensures Arrived(OPS) == [Connected, RoomConfirmed(1, "a", false), Message("a", "hi")]
  {
    assert OPS[..1] == [DoConnect] && OPS[..2][..1] == OPS[..1] && OPS[..3][..2] == OPS[..2];
    assert Arrived(OPS[..1]) == [] && Arrived(OPS[..2]) == [Connected];
    assert OPS[..4][..3] == OPS[..3];
    assert Arrived(OPS[..4]) == [Connected, RoomConfirmed(1, "a", false)];
    assert OPS[..5] == OPS && OPS[..5][..4] == OPS[..4];
  }

  lemma NamesAreKept()
    ensures AllKeepNames(OPS)
  {
    NamesAreKeptUpTo(5);
    assert OPS[..5] == OPS;
  }

  lemma {:induction false} NamesAreKeptUpTo(n: nat)
    requires n <= 5
    ensures AllKeepNames(OPS[..n])
    decreases n
  {
    if n > 0 {
      NamesAreKeptUpTo(n - 1);
      assert OPS[..n][..n - 1] == OPS[..n - 1] && OPS[..n][n - 1] == OPS[n - 1];
      if n == 4 {
        RenamingIsHarmless();
      }
    }
  }

  /** Nothing has been heard when the subscription is confirmed. */
  lemma RenamingIsHarmless()
    ensures KeepsName(DoAll(OPS[..3]), Heard(OPS[..3]), OPS[3])
  {
    EventsArrive();
    ClientRuns();
    assert [Connected][..0] == [] && Heard(OPS[..3]) == [];
  }

  lemma TaskSendsThem(raw: Wire -> string)
    ensures FromTask(Arrived(OPS), [JOINED, RELAYED], raw)
  {
    EventsArrive();
    FramesAreUnderstood(JOINED.wire, raw(JOINED.wire));
    FramesAreUnderstood(RELAYED.wire, raw(RELAYED.wire));
    var es, frames := Arrived(OPS), [JOINED, RELAYED];
    assert es[..2][..1] == [Connected] && [Connected][..0] == [] && frames[..1] == [JOINED] && [JOINED][..0] == [];
    assert SentByTask([Connected], [], raw);
    assert SentByTask(es[..2], [JOINED], raw);
    assert SentByTask(es, frames, raw);
    assert frames[..2] == frames;
  }

  lemma TextsAreKept()
    ensures ClientViews.ServerTexts(HEARD.messages, 1) == ["hi"]
  {
    assert HEARD.messages[..1] == [OPENING] && [OPENING][..0] == [];
    assert ClientViews.ServerTexts([OPENING], 1) == [];
  }

  lemma ReceivedIs()
    ensures IsMember(RECEIVED, 1) && OnlyOfItsName(RECEIVED, 1)
    ensures RECEIVED.members[1].owner == 1 && RECEIVED.sessions[1].sent == [JOINED, RELAYED]
    ensures RECEIVED.rooms[RECEIVED.members[1].room].name == "a" && Texts(Owed(RECEIVED, 1)) == ["hi"]
  {
    OwedHi([Entry(0, "hi")]);
  }

  lemma ClientKeepsHi()
    ensures ClientViews.Tidy(OPS) && AllKeepNames(OPS) && DoAll(OPS) == HEARD
    ensures HEARD.rooms[0].name == "a" && ClientViews.ServerTexts(HEARD.messages, HEARD.rooms[0].id) == ["hi"]
  {
    ClientRuns();
    HarmlessIsTidy(OPS);
    NamesAreKept();
    TextsAreKept();
  }

  /** All that `ClientKeepsPartOfTheLog` asks for is met by a run in which a message goes the whole way. */
  lemma EndToEnd(raw: Wire -> string) returns (steps: seq<Step>)
    ensures Runs(Init, steps) && Run(Init, steps) == RECEIVED
    ensures IsMember(RECEIVED, 1) && OnlyOfItsName(RECEIVED, 1)
    ensures FromTask(Arrived(OPS), RECEIVED.sessions[1].sent, raw)
    ensures ClientViews.Tidy(OPS) && AllKeepNames(OPS) && DoAll(OPS) == HEARD
    ensures HEARD.rooms[0].name == RECEIVED.rooms[RECEIVED.members[1].room].name
    ensures ClientViews.ServerTexts(HEARD.messages, HEARD.rooms[0].id) == ["hi"] == Texts(Owed(RECEIVED, 1))
  {
    steps := MessageArrives();
    ReceivedIs();
    ClientKeepsHi();
    TaskSendsThem(raw);
  }

  // ---------------------------------------------------------------------------
  // A wake-up is lost, and the message with it
  // ---------------------------------------------------------------------------

  const STUCK := Got([HI], Parked, Reading, [])

  /** The fan-out is over, and the message waits for a listener that nobody will resume. */
  function Calm(m0: Member, poster: Session, reader: Session): State {
    State([Room(1, "a", [0, 1], Free, [Entry(0, "hi")])], [m0, STUCK], [poster, reader])
  }

  function Host(reader: Reader, pc: ListenerPc): Member {
    Member(0, 0, 0, 0, Chan([], false, reader), pc, [])
  }

  function Confirming(queue: seq<Frame>, reader: Reader, writer: WriterPc, sent: seq<Frame>): Session {
    Session(Idle, map[0 := 0], Chan(queue, false, reader), writer, [CREATED], sent, [CREATING, POSTING])
  }

  function Confirmed(queue: seq<Frame>, reader: Reader, writer: WriterPc, sent: seq<Frame>): Session {
    Session(Idle, map[0 := 1], Chan(queue, false, reader), writer, [JOINED], sent, [JOINING])
  }

  const HOSTED := Host(Parked, Reading)
  const SENT0 := Confirming([], Parked, Fetching, [CREATED])
  const RESTING := Calm(HOSTED, SENT0, Confirmed([], Parked, Fetching, [JOINED]))

  /** The listener of client 1 checks its channel, and finds it empty. */
  lemma HopsToWindow()
    ensures Hop(FANNING, ListenTop(1), MidFanOut(0, Got([], Away, Locked, [])))
    ensures Hop(MidFanOut(0, Got([], Away, Locked, [])), ListenCheck(1), MidFanOut(0, Got([], Polling, Reading, [])))
    ensures Hop(MidFanOut(0, Got([], Polling, Reading, [])), ListenPoll(1, false),
                MidFanOut(0, Got([], Window, Reading, [])))
  {
  }

  /** The fan-out writes to it before the listener waits. */
  lemma HopsPastWindow()
    ensures Hop(MidFanOut(0, Got([], Window, Reading, [])), FanOne(0), MidFanOut(1, Got([], Window, Reading, [])))
    ensures Hop(MidFanOut(1, Got([], Window, Reading, [])), FanOne(0), MidFanOut(2, Got([HI], Window, Reading, [])))
    ensures Hop(MidFanOut(2, Got([HI], Window, Reading, [])), ListenPark(1), MidFanOut(2, STUCK))
    ensures Hop(MidFanOut(2, STUCK), Unlock(0), Calm(MEMBER0, Poster(Idle), READER))
  {
    assert Got([], Window, Reading, []).ch.queue + [HI] == [HI];
  }

  lemma HopsOfHost()
    ensures Hop(Calm(MEMBER0, Poster(Idle), READER), ListenTop(0), Calm(Host(Away, Locked), Poster(Idle), READER))
    ensures Hop(Calm(Host(Away, Locked), Poster(Idle), READER), ListenCheck(0),
                Calm(Host(Polling, Reading), Poster(Idle), READER))
    ensures Hop(Calm(Host(Polling, Reading), Poster(Idle), READER), ListenPoll(0, true),
                Calm(HOSTED, Poster(Idle), READER))
  {
  }

  lemma HopsOfWriter0()
    ensures Hop(Calm(HOSTED, Poster(Idle), READER), WritePoll(0, true),
                Calm(HOSTED, Confirming([], Away, Sending(CREATED), []), READER))
    ensures Hop(Calm(HOSTED, Confirming([], Away, Sending(CREATED), []), READER), WriteSend(0),
                Calm(HOSTED, Confirming([], Polling, Fetching, [CREATED]), READER))
    ensures Hop(Calm(HOSTED, Confirming([], Polling, Fetching, [CREATED]), READER), WritePoll(0, true),
                Calm(HOSTED, SENT0, READER))
  {
    assert [CREATED][1..] == [] && [] + [CREATED] == [CREATED];
  }

  lemma HopsOfWriter1()
    ensures Hop(Calm(HOSTED, SENT0, READER), WritePoll(1, true),
                Calm(HOSTED, SENT0, Confirmed([], Away, Sending(JOINED), [])))
    ensures Hop(Calm(HOSTED, SENT0, Confirmed([], Away, Sending(JOINED), [])), WriteSend(1),
                Calm(HOSTED, SENT0, Confirmed([], Polling, Fetching, [JOINED])))
    ensures Hop(Calm(HOSTED, SENT0, Confirmed([], Polling, Fetching, [JOINED])), WritePoll(1, true), RESTING)
  {
    assert [JOINED][1..] == [] && [] + [JOINED] == [JOINED];
  }

  lemma WakeUpIsMissed() returns (steps: seq<Step>)
    ensures Runs(Init, steps) && Run(Init, steps) == Calm(MEMBER0, Poster(Idle), READER)
  {
    HopsToWindow();
    HopsPastWindow();
    steps := FanOutBegins();
    steps := Go(steps, FANNING, ListenTop(1), MidFanOut(0, Got([], Away, Locked, [])));
    steps := Go(steps, MidFanOut(0, Got([], Away, Locked, [])), ListenCheck(1),
                MidFanOut(0, Got([], Polling, Reading, [])));
    steps := Go(steps, MidFanOut(0, Got([], Polling, Reading, [])), ListenPoll(1, false),
                MidFanOut(0, Got([], Window, Reading, [])));
    steps := Go(steps, MidFanOut(0, Got([], Window, Reading, [])), FanOne(0),
                MidFanOut(1, Got([], Window, Reading, [])));
    steps := Go(steps, MidFanOut(1, Got([], Window, Reading, [])), FanOne(0),
                MidFanOut(2, Got([HI], Window, Reading, [])));
    steps := Go(steps, MidFanOut(2, Got([HI], Window, Reading, [])), ListenPark(1), MidFanOut(2, STUCK));
    steps := Go(steps, MidFanOut(2, STUCK), Unlock(0), Calm(MEMBER0, Poster(Idle), READER));
  }

  lemma OthersRest() returns (steps: seq<Step>)
    ensures Runs(Init, steps) && Run(Init, steps) == RESTING
  {
    HopsOfHost();
    HopsOfWriter0();
    HopsOfWriter1();
    steps := WakeUpIsMissed();
    steps := Go(steps, Calm(MEMBER0, Poster(Idle), READER), ListenTop(0),
                Calm(Host(Away, Locked), Poster(Idle), READER));
    steps := Go(steps, Calm(Host(Away, Locked), Poster(Idle), READER), ListenCheck(0),
                Calm(Host(Polling, Reading), Poster(Idle), READER));
    steps := Go(steps, Calm(Host(Polling, Reading), Poster(Idle), READER), ListenPoll(0, true),
                Calm(HOSTED, Poster(Idle), READER));
    steps := Go(steps, Calm(HOSTED, Poster(Idle), READER), WritePoll(0, true),
                Calm(HOSTED, Confirming([], Away, Sending(CREATED), []), READER));
    steps := Go(steps, Calm(HOSTED, Confirming([], Away, Sending(CREATED), []), READER), WriteSend(0),
                Calm(HOSTED, Confirming([], Polling, Fetching, [CREATED]), READER));
    steps := Go(steps, Calm(HOSTED, Confirming([], Polling, Fetching, [CREATED]), READER), WritePoll(0, true),
                Calm(HOSTED, SENT0, READER));
    steps := Go(steps, Calm(HOSTED, SENT0, READER), WritePoll(1, true),
                Calm(HOSTED, SENT0, Confirmed([], Away, Sending(JOINED), [])));
    steps := Go(steps, Calm(HOSTED, SENT0, Confirmed([], Away, Sending(JOINED), [])), WriteSend(1),
                Calm(HOSTED, SENT0, Confirmed([], Polling, Fetching, [JOINED])));
    steps := Go(steps, Calm(HOSTED, SENT0, Confirmed([], Polling, Fetching, [JOINED])), WritePoll(1, true), RESTING);
  }

  lemma NobodyCanMove()
    ensures Drain.AtRest(RESTING)
  {
    forall step | Drain.Internal(step) ensures !Enabled(RESTING, step) {
    }
  }

  lemma NothingReached()
    ensures Drain.Live(RESTING, 1) && Received(RESTING, 1) == [] && Owed(RESTING, 1) == [HI]
  {
    OwedHi([Entry(0, "hi")]);
    assert [JOINED][..0] == [] && Forwarded([JOINED], 1) == [];
  }

  /**
   With several threads the server can come to rest before all is delivered: the subscription is open, its socket
   works, no one has anything left to do, and the only message it is owed has not been sent.
   */
  lemma WakeUpLosesMessage() returns (steps: seq<Step>)
    ensures Runs(Init, steps) && Run(Init, steps) == RESTING && Drain.AtRest(RESTING)
    ensures Drain.Live(RESTING, 1) && Received(RESTING, 1) == [] && Owed(RESTING, 1) == [HI]
    ensures !Drain.NoneDisturbed(steps) && Drain.HeldBack(steps, 1)
  {
    steps := OthersRest();
    NobodyCanMove();
    NothingReached();
    Drain.DrainIsComplete(steps);
  }
}
