/** What a client may rely on, in every run of the server. */
module Guarantees {
  import opened Requests
  import opened RequestLaws
  import opened Pipeline
  import opened Membership
  import AtomicBroadcast
  import opened Delivery
  import opened Outputs
  import ChatRooms

  // ---------------------------------------------------------------------------
  // Agreement between subscribers
  // ---------------------------------------------------------------------------

  predicate Ascending(copies: seq<Copy>) {
    forall i, j :: 0 <= i < j < |copies| ==> copies[i].at < copies[j].at
  }

  /** Every copy is of an entry from `from` up to `to` that is not the reader's own. */
  predicate AreEntries(log: seq<Entry>, from: nat, to: nat, reader: nat, copies: seq<Copy>) {
    forall i :: 0 <= i < |copies| ==>
      from <= copies[i].at < to && copies[i].at < |log| && log[copies[i].at].text == copies[i].text &&
      log[copies[i].at].sender != reader
  }

  /** And no such entry is left out. */
  ghost predicate NoneMissing(log: seq<Entry>, from: nat, to: nat, reader: nat, copies: seq<Copy>) {
    forall p :: from <= p < to && p < |log| && log[p].sender != reader ==> Copy(p, log[p].text) in copies
  }

  ghost predicate Marks(log: seq<Entry>, from: nat, to: nat, reader: nat, copies: seq<Copy>) {
    Ascending(copies) && AreEntries(log, from, to, reader, copies) && NoneMissing(log, from, to, reader, copies)
  }

  lemma MarksGrow(log: seq<Entry>, e: Entry, from: nat, reader: nat, copies: seq<Copy>)
    requires from <= |log| && Marks(log, from, |log|, reader, copies)
    ensures Marks(log + [e], from, |log| + 1, reader,
                  copies + (if e.sender != reader then [Copy(|log|, e.text)] else []))
  {
    var copies' := copies + (if e.sender != reader then [Copy(|log|, e.text)] else []);
    assert Ascending(copies') && AreEntries(log + [e], from, |log| + 1, reader, copies');
    forall p | from <= p < |log| + 1 && (log + [e])[p].sender != reader
      ensures Copy(p, (log + [e])[p].text) in copies'
    {
      if p < |log| {
        assert Copy(p, log[p].text) in copies;
      } else {
        assert copies'[|copies|] == Copy(p, e.text);
      }
    }
  }

  lemma {:induction false} OwedIsMarked(log: seq<Entry>, from: nat, reader: nat)
    ensures Marks(log, from, |log|, reader, AtomicBroadcast.Owed(log, from, reader))
    decreases |log|
  {
    if from < |log| {
      var before, e := log[..|log| - 1], log[|log| - 1];
      assert before + [e] == log;
      OwedIsMarked(before, from, reader);
      AtomicBroadcast.OwedGrows(before, e, from, reader);
      MarksGrow(before, e, from, reader, AtomicBroadcast.Owed(before, from, reader));
    }
  }

  /** A prefix of what is owed has no gap: it ends where its last entry does. */
  lemma PrefixIsMarked(log: seq<Entry>, from: nat, reader: nat, copies: seq<Copy>)
    requires copies <= AtomicBroadcast.Owed(log, from, reader)
    ensures Marks(log, from, EndOf(copies, from), reader, copies)
  {
    var owed := AtomicBroadcast.Owed(log, from, reader);
    OwedIsMarked(log, from, reader);
    if copies != [] {
      var last := copies[|copies| - 1];
      forall p | from <= p <= last.at && p < |log| && log[p].sender != reader
        ensures Copy(p, log[p].text) in copies
      {
        var i :| 0 <= i < |owed| && owed[i] == Copy(p, log[p].text);
        assert owed[|copies| - 1] == last;
        assert i <= |copies| - 1;
        assert copies[i] == owed[i];
      }
    }
  }

  /** The log position after the last copy. */
  function EndOf(copies: seq<Copy>, from: nat): nat {
    if copies == [] then from else copies[|copies| - 1].at + 1
  }

  /** The received copies are the log from the join up to the last of them, without the reader's own entries. */
  ghost predicate ReceivedInOrder(st: State, c: nat)
    requires IsMember(st, c)
  {
    var m := st.members[c];
    Marks(st.rooms[m.room].log, m.joined, EndOf(Received(st, c), m.joined), m.owner, Received(st, c))
  }

  /**
   What reached the socket for a subscription, frame by frame: the room's log from the join up to the last
   entry received, without the reader's own entries, in order and with nothing left out in between.
   */
  lemma ReceivedIsLogged(steps: seq<Step>, c: nat)
    requires Runs(Init, steps) && c < |Run(Init, steps).members|
    ensures IsMember(Run(Init, steps), c) && ReceivedInOrder(Run(Init, steps), c)
  {
    ReceivedIsPrefix(steps, c);
    ReceivedIsMarked(Run(Init, steps), c);
  }

  lemma ReceivedIsMarked(st: State, c: nat)
    requires IsMember(st, c) && Received(st, c) <= Owed(st, c)
    ensures ReceivedInOrder(st, c)
  {
    PrefixIsMarked(st.rooms[st.members[c].room].log, st.members[c].joined, st.members[c].owner, Received(st, c));
  }

  /** The copies of entries from `from` on that neither `a` nor `b` sent. */
  function Shared(copies: seq<Copy>, log: seq<Entry>, from: nat, a: nat, b: nat): seq<Copy> {
    if copies == [] then []
    else
      var last := copies[|copies| - 1];
      Shared(copies[..|copies| - 1], log, from, a, b) +
      (if from <= last.at < |log| && log[last.at].sender != a && log[last.at].sender != b then [last] else [])
  }

  lemma SharedAppend(copies: seq<Copy>, x: Copy, log: seq<Entry>, from: nat, a: nat, b: nat)
    ensures Shared(copies + [x], log, from, a, b) ==
            Shared(copies, log, from, a, b) +
            (if from <= x.at < |log| && log[x.at].sender != a && log[x.at].sender != b then [x] else [])
  {
    assert (copies + [x])[..|copies|] == copies;
  }

  lemma {:induction false} SharedPrefix(xs: seq<Copy>, ys: seq<Copy>, log: seq<Entry>, from: nat, a: nat, b: nat)
    requires xs <= ys
    ensures Shared(xs, log, from, a, b) <= Shared(ys, log, from, a, b)
    decreases |ys|
  {
    if |xs| < |ys| {
      SharedPrefix(xs, ys[..|ys| - 1], log, from, a, b);
    } else {
      assert xs == ys;
    }
  }

  /** What two readers are both owed: the entries after both joins that neither of them sent. */
  function OwedToBoth(log: seq<Entry>, n: nat, from: nat, a: nat, b: nat): seq<Copy>
    requires n <= |log|
  {
    if n <= from then []
    else
      OwedToBoth(log, n - 1, from, a, b) +
      (if log[n - 1].sender != a && log[n - 1].sender != b then [Copy(n - 1, log[n - 1].text)] else [])
  }

  lemma {:induction false} SharedOfOwed(log: seq<Entry>, n: nat, joined: nat, from: nat, reader: nat, a: nat, b: nat)
    requires n <= |log| && joined <= from && (reader == a || reader == b)
    ensures Shared(AtomicBroadcast.Owed(log[..n], joined, reader), log, from, a, b) == OwedToBoth(log, n, from, a, b)
    decreases n
  {
    if joined < n {
      var e, before := log[n - 1], AtomicBroadcast.Owed(log[..n - 1], joined, reader);
      SharedOfOwed(log, n - 1, joined, from, reader, a, b);
      assert log[..n] == log[..n - 1] + [e];
      AtomicBroadcast.OwedGrows(log[..n - 1], e, joined, reader);
      if e.sender == reader {
        assert before + [] == before;
      } else {
        SharedAppend(before, Copy(n - 1, e.text), log, from, a, b);
      }
    }
  }

  /**
   Two subscribers of a room agree on all they have in common: of the entries after both joins that neither
   of them sent, what one has received is a beginning of what the other has received.
   */
  lemma SubscribersAgree(steps: seq<Step>, c: nat, d: nat)
    requires Runs(Init, steps) && c < |Run(Init, steps).members| && d < |Run(Init, steps).members|
    requires Run(Init, steps).members[c].room == Run(Init, steps).members[d].room
    ensures var st := Run(Init, steps);
      IsMember(st, c) && IsMember(st, d) &&
      var m, m' := st.members[c], st.members[d];
      var log, from := st.rooms[m.room].log, if m.joined < m'.joined then m'.joined else m.joined;
      var xs := Shared(Received(st, c), log, from, m.owner, m'.owner);
      var ys := Shared(Received(st, d), log, from, m.owner, m'.owner);
      (xs <= ys || ys <= xs) &&
      xs <= OwedToBoth(log, |log|, from, m.owner, m'.owner) && ys <= OwedToBoth(log, |log|, from, m.owner, m'.owner)
  {
    ReceivedIsPrefix(steps, c);
    ReceivedIsPrefix(steps, d);
    var st := Run(Init, steps);
    var m, m' := st.members[c], st.members[d];
    var log, from := st.rooms[m.room].log, if m.joined < m'.joined then m'.joined else m.joined;
    assert log[..|log|] == log;
    SharedOfOwed(log, |log|, m.joined, from, m.owner, m.owner, m'.owner);
    SharedOfOwed(log, |log|, m'.joined, from, m'.owner, m.owner, m'.owner);
    SharedPrefix(Received(st, c), Owed(st, c), log, from, m.owner, m'.owner);
    SharedPrefix(Received(st, d), Owed(st, d), log, from, m.owner, m'.owner);
  }

  // ---------------------------------------------------------------------------
  // Senders
  // ---------------------------------------------------------------------------

  /**
   A sender's messages stand in the room's log in the order in which its requests were served. At most
   the last one is still waiting for the room mutex.
   */
  lemma SendersKeepTheirOrder(steps: seq<Step>, s: nat, r: nat)
    requires Runs(Init, steps) && Has(Run(Init, steps), s) && r < |Run(Init, steps).rooms|
    ensures var st := Run(Init, steps);
      TextsBy(st.rooms[r].log, s) + PendingPost(st.sessions[s], r) == PostsTo(st.sessions[s].served, r)
  {
    ReachableOrdered(steps);
    assert PostStream(Run(Init, steps), s, r);
  }

  /** The texts of the copies that sender `s` sent. */
  function BySender(copies: seq<Copy>, log: seq<Entry>, s: nat): seq<string> {
    if copies == [] then []
    else
      var last := copies[|copies| - 1];
      BySender(copies[..|copies| - 1], log, s) +
      (if last.at < |log| && log[last.at].sender == s then [last.text] else [])
  }

  lemma BySenderAppend(copies: seq<Copy>, x: Copy, log: seq<Entry>, s: nat)
    ensures BySender(copies + [x], log, s) ==
            BySender(copies, log, s) + (if x.at < |log| && log[x.at].sender == s then [x.text] else [])
  {
    assert (copies + [x])[..|copies|] == copies;
  }

  lemma {:induction false} BySenderPrefix(xs: seq<Copy>, ys: seq<Copy>, log: seq<Entry>, s: nat)
    requires xs <= ys
    ensures BySender(xs, log, s) <= BySender(ys, log, s)
    decreases |ys|
  {
    if |xs| < |ys| {
      BySenderPrefix(xs, ys[..|ys| - 1], log, s);
    } else {
      assert xs == ys;
    }
  }

  lemma TextsByAppend(log: seq<Entry>, e: Entry, s: nat)
    ensures TextsBy(log + [e], s) == TextsBy(log, s) + (if e.sender == s then [e.text] else [])
  {
    assert (log + [e])[..|log|] == log;
  }

  lemma OneMoreOwed(owed: seq<Copy>, owed': seq<Copy>, x: Copy, log: seq<Entry>, s: nat,
                    texts: seq<string>, texts': seq<string>, head: seq<string>)
    requires x.at < |log| && texts == head + BySender(owed, log, s)
    requires owed' == owed + [x] || (owed' == owed && log[x.at].sender != s)
    requires texts' == texts + (if log[x.at].sender == s then [x.text] else [])
    ensures texts' == head + BySender(owed', log, s)
  {
    BySenderAppend(owed, x, log, s);
  }

  /** Of the messages of sender `s` in a log, a reader is owed those after its join. */
  lemma {:induction false} OwedBySender(log: seq<Entry>, n: nat, joined: nat, reader: nat, s: nat)
    requires joined <= n <= |log| && s != reader
    ensures TextsBy(log[..n], s) ==
            TextsBy(log[..joined], s) + BySender(AtomicBroadcast.Owed(log[..n], joined, reader), log, s)
    decreases n
  {
    if joined < n {
      var before, e := log[..n - 1], log[n - 1];
      OwedBySender(log, n - 1, joined, reader, s);
      assert log[..n] == before + [e];
      TextsByAppend(before, e, s);
      AtomicBroadcast.OwedGrows(before, e, joined, reader);
      OneMoreOwed(AtomicBroadcast.Owed(before, joined, reader), AtomicBroadcast.Owed(before + [e], joined, reader),
                  Copy(n - 1, e.text), log, s, TextsBy(before, s), TextsBy(before + [e], s), TextsBy(log[..joined], s));
    }
  }

  /** What of sender `s` reached the socket for channel `c`. */
  function ReceivedFrom(st: State, c: nat, s: nat): seq<string>
    requires IsMember(st, c)
  {
    BySender(Received(st, c), st.rooms[st.members[c].room].log, s)
  }

  /** How many messages sender `s` had in the log of the room of channel `c` when `c` joined. */
  function MissedFrom(st: State, c: nat, s: nat): nat
    requires IsMember(st, c) && st.members[c].joined <= |st.rooms[st.members[c].room].log|
  {
    |TextsBy(st.rooms[st.members[c].room].log[..st.members[c].joined], s)|
  }

  /** What channel `c` has received from sender `s` is a slice of `posts`, from the first one logged after the join. */
  predicate ReceivesSlice(st: State, c: nat, s: nat, posts: seq<string>) {
    IsMember(st, c) && st.members[c].joined <= |st.rooms[st.members[c].room].log| &&
    var from, n := MissedFrom(st, c, s), |ReceivedFrom(st, c, s)|;
    from + n <= |posts| && posts[from..from + n] == ReceivedFrom(st, c, s)
  }

  /** The messages of a sender that a room's log holds, or that the session is about to log. */
  function PostedBy(st: State, s: nat, r: nat): seq<string>
    requires Has(st, s) && r < |st.rooms|
  {
    TextsBy(st.rooms[r].log, s) + PendingPost(st.sessions[s], r)
  }

  /**
   Sender order end to end: what a subscriber has received from a sender is a slice, without a gap, of what the
   sender's requests post to the room, in the order in which they were served, from the first one logged after the
   subscriber joined.
   */
  lemma SendersReachInOrder(steps: seq<Step>, c: nat, s: nat)
    requires Runs(Init, steps) && c < |Run(Init, steps).members| && Has(Run(Init, steps), s)
    requires s != Run(Init, steps).members[c].owner
    ensures ReceivesSlice(Run(Init, steps), c, s, PostsTo(ServedBy(steps, s), Run(Init, steps).members[c].room))
  {
    var st := Run(Init, steps);
    ReceivedIsPrefix(steps, c);
    Reachable(steps);
    SliceOfPosts(st, c, s);
    PostedIsServed(steps, s, st.members[c].room);
  }

  lemma PostedIsServed(steps: seq<Step>, s: nat, r: nat)
    requires Runs(Init, steps) && Has(Run(Init, steps), s) && r < |Run(Init, steps).rooms|
    ensures PostedBy(Run(Init, steps), s, r) == PostsTo(ServedBy(steps, s), r)
  {
    ServedIsTheSchedule(steps, s);
    SendersKeepTheirOrder(steps, s, r);
  }

  lemma SliceOfPosts(st: State, c: nat, s: nat)
    requires Inv(st) && IsMember(st, c) && Has(st, s)
    requires Received(st, c) <= Owed(st, c) && s != st.members[c].owner
    ensures ReceivesSlice(st, c, s, PostedBy(st, s, st.members[c].room))
  {
    assert MemberOk(st, c);
    var m := st.members[c];
    var log := st.rooms[m.room].log;
    assert log[..|log|] == log;
    OwedBySender(log, |log|, m.joined, m.owner, s);
    BySenderPrefix(Received(st, c), Owed(st, c), log, s);
    Slice(TextsBy(log[..m.joined], s), ReceivedFrom(st, c, s), BySender(Owed(st, c), log, s), PostedBy(st, s, m.room));
  }

  lemma Slice(xs: seq<string>, ys: seq<string>, zs: seq<string>, all: seq<string>)
    requires ys <= zs && xs + zs <= all
    ensures |xs| + |ys| <= |all| && all[|xs|..|xs| + |ys|] == ys
  {
    assert all[..|xs + zs|] == xs + zs;
    assert all[|xs|..|xs| + |ys|] == (xs + zs)[|xs|..|xs| + |ys|];
  }

  /** A message is logged only for an open member, through the channel that stands in the connection list. */
  lemma OnlyMembersPost(steps: seq<Step>, s: nat)
    requires Runs(Init, steps) && Enabled(Run(Init, steps), Acquire(s))
    ensures var st, st' := Run(Init, steps), Next(Run(Init, steps), Acquire(s));
      var r, subs := st.sessions[s].pc.room, st.sessions[s].subs;
      if r in subs
      then subs[r] < |st.members| && st.members[subs[r]].owner == s && !st.members[subs[r]].ch.closed &&
           StandsAt(st, subs[r], r, st.members[subs[r]].slot) &&
           st'.rooms[r].log == st.rooms[r].log + [Entry(s, st.sessions[s].pc.text)]
      else st'.rooms[r].log == st.rooms[r].log && st'.members == st.members
  {
    ReachableInv(steps);
    var st := Run(Init, steps);
    var r := st.sessions[s].pc.room;
    assert SessionOk(st, s);
    if r in st.sessions[s].subs {
      assert Owns(st, s, r, st.sessions[s].subs[r]);
      assert MemberOk(st, st.sessions[s].subs[r]);
    }
  }

  // ---------------------------------------------------------------------------
  // The session's output
  // ---------------------------------------------------------------------------

  /** The lines that the steps of a schedule bring to session `s`, in order. */
  function LinesTo(steps: seq<Step>, s: nat): seq<Line> {
    if steps == [] then []
    else
      var last := steps[|steps| - 1];
      LinesTo(steps[..|steps| - 1], s) + (if last.Receive? && last.s == s then [last.line] else [])
  }

  function ServedAs(line: Line, keys: seq<Key>, subs: set<nat>): Served {
    Served(line, keys, subs, Decide(keys, subs, line))
  }

  /** The directory and the subscriptions by which a step judges a line of session `s`, if it judges one. */
  function JudgedBy(st: State, step: Step, s: nat): seq<Served>
    requires Enabled(st, step)
  {
    match step
    case Receive(p, line) =>
      var keys, subs := Keys(st.rooms), st.sessions[p].subs.Keys;
      if p == s && !Decide(keys, subs, line).Create? then [ServedAs(line, keys, subs)] else []
    case CreateRoom(p) =>
      if p == s then [ServedAs(st.sessions[p].pc.line, Keys(st.rooms), st.sessions[p].subs.Keys)] else []
    case _ => []
  }

  function ServedBy(steps: seq<Step>, s: nat): seq<Served>
    requires Runs(Init, steps)
    decreases |steps|
  {
    if steps == [] then []
    else
      var before := steps[..|steps| - 1];
      ServedBy(before, s) + JudgedBy(Run(Init, before), steps[|steps| - 1], s)
  }

  function LinesOf(served: seq<Served>): (lines: seq<Line>)
    ensures |lines| == |served| && forall k :: 0 <= k < |served| ==> lines[k] == served[k].line
  {
    seq(|served|, k requires 0 <= k < |served| => served[k].line)
  }

  /** A `csub` that has been read and not yet been carried out. */
  function PendingLine(pc: SessionPc): seq<Line> {
    match pc
    case Creating(_, line) => [line]
    case _ => []
  }

  predicate Serves(st: State, s: nat, served: seq<Served>, lines: seq<Line>) {
    if Has(st, s)
    then st.sessions[s].served == served && LinesOf(served) + PendingLine(st.sessions[s].pc) == lines &&
         (st.sessions[s].pc.Creating? ==> AsksFor(st.sessions[s].pc.line, st.sessions[s].pc.name))
    else served == [] && lines == []
  }

  /** Reading a line. */
  lemma ReceiveServes(st: State, s: nat, line: Line, served: seq<Served>, lines: seq<Line>)
    requires Enabled(st, Receive(s, line)) && Serves(st, s, served, lines)
    ensures Serves(DoReceive(st, s, line), s, served + JudgedBy(st, Receive(s, line), s), lines + [line])
  {
    var keys, subs := Keys(st.rooms), st.sessions[s].subs.Keys;
    var d := Decide(keys, subs, line);
    if d.Create? {
      assert served + [] == served;
      CreatesIff(keys, subs, line, d.name);
    }
  }

  lemma CreateRoomServes(st: State, s: nat, served: seq<Served>, lines: seq<Line>)
    requires Enabled(st, CreateRoom(s)) && Serves(st, s, served, lines)
    ensures Serves(DoCreateRoom(st, s), s, served + JudgedBy(st, CreateRoom(s), s), lines)
  {
    CreatesIff(Keys(st.rooms), st.sessions[s].subs.Keys, st.sessions[s].pc.line, st.sessions[s].pc.name);
  }

  /** The other steps change neither what session `s` was served nor what it has pending, but for its `CreateRoom`. */
  lemma OthersServeNothing(st: State, step: Step, s: nat)
    requires Enabled(st, step) && Has(st, s)
    requires !(step.Receive? && step.s == s) && !(step.CreateRoom? && step.s == s)
    ensures Next(st, step).sessions[s].served == st.sessions[s].served
    ensures var pc, pc' := st.sessions[s].pc, Next(st, step).sessions[s].pc;
      if pc.Creating? then pc' == pc else !pc'.Creating?
    ensures JudgedBy(st, step, s) == []
  {
  }

  lemma StepServes(st: State, step: Step, s: nat, served: seq<Served>, lines: seq<Line>)
    requires Enabled(st, step) && Serves(st, s, served, lines)
    ensures Serves(Next(st, step), s, served + JudgedBy(st, step, s),
                   lines + (if step.Receive? && step.s == s then [step.line] else []))
  {
    if step.Receive? && step.s == s {
      ReceiveServes(st, s, step.line, served, lines);
    } else if step.CreateRoom? && step.s == s {
      CreateRoomServes(st, s, served, lines);
      assert lines + [] == lines;
    } else if Has(st, s) {
      OthersServeNothing(st, step, s);
      assert served + [] == served && lines + [] == lines;
    }
  }

  /**
   The lines served to a session are those the schedule brings to it, in order and each judged by the directory
   and the subscriptions of that moment; at most a `csub` is still waiting for the directory.
   */
  lemma {:induction false} ServedIsTheSchedule(steps: seq<Step>, s: nat)
    requires Runs(Init, steps)
    ensures Serves(Run(Init, steps), s, ServedBy(steps, s), LinesTo(steps, s))
    decreases |steps|
  {
    if steps != [] {
      var before, last := steps[..|steps| - 1], steps[|steps| - 1];
      ServedIsTheSchedule(before, s);
      StepServes(Run(Init, before), last, s, ServedBy(before, s), LinesTo(before, s));
    }
  }

  lemma {:induction false} ServedIsJudged(steps: seq<Step>, s: nat)
    requires Runs(Init, steps)
    ensures forall e :: e in ServedBy(steps, s) ==> e == ServedAs(e.line, e.keys, e.subs)
    decreases |steps|
  {
    if steps != [] {
      ServedIsJudged(steps[..|steps| - 1], s);
    }
  }

  /**
   The frames a session's write channel accepted are a shuffle of one reply stream, which is the fold of
   the handlers over the lines the schedule brought to the session, and one stream per subscription, which is
   a prefix of what that subscription is owed. Each frame belongs to exactly one of them.
   */
  lemma SessionOutputIsAShuffle(steps: seq<Step>, s: nat)
    requires Runs(Init, steps) && Has(Run(Init, steps), s)
    ensures var st, se := Run(Init, steps), Run(Init, steps).sessions[s];
      && se.accepted == se.sent + Taken(se.writer) + se.out.queue
      && Replies(se.accepted) + PendingReply(st.rooms, se) == RepliesTo(ServedBy(steps, s))
      && LinesOf(ServedBy(steps, s)) + PendingLine(se.pc) == LinesTo(steps, s)
      && (forall e :: e in ServedBy(steps, s) ==> e == ServedAs(e.line, e.keys, e.subs))
      && (forall f :: f in se.accepted ==> Tagged(st, s, f))
      && forall c :: 0 <= c < |st.members| && st.members[c].owner == s ==>
           IsMember(st, c) && Forwarded(se.accepted, c) <= Owed(st, c)
  {
    Reachable(steps);
    ReachableOrdered(steps);
    ServedIsTheSchedule(steps, s);
    ServedIsJudged(steps, s);
    var st := Run(Init, steps);
    assert SessionBooks(st, s) && ReplyStream(st, s);
    forall c | 0 <= c < |st.members| && st.members[c].owner == s
      ensures IsMember(st, c) && Forwarded(st.sessions[s].accepted, c) <= Owed(st, c)
    {
      TakenIsOwed(st, c);
      assert MemberBooks(st, c);
    }
  }

  // ---------------------------------------------------------------------------
  // The room directory
  // ---------------------------------------------------------------------------

  lemma StepKeepsRooms(st: State, step: Step)
    requires Enabled(st, step)
    ensures Keys(st.rooms) <= Keys(Next(st, step).rooms)
  {
    var st' := Next(st, step);
    assert |st.rooms| <= |st'.rooms|;
    forall r | 0 <= r < |st.rooms| ensures KeyOf(st'.rooms[r]) == KeyOf(st.rooms[r]) {}
  }

  /**
   Over any interleaving of creations the ids are 1, 2, 3, ... in creation order, and a room that exists
   keeps its id, its name and its position.
   */
  lemma {:induction false} RoomsAreForEver(steps: seq<Step>, n: nat)
    requires Runs(Init, steps) && n <= |steps|
    ensures Runs(Init, steps[..n])
    ensures Keys(Run(Init, steps[..n]).rooms) <= Keys(Run(Init, steps).rooms)
    ensures ChatRooms.Numbered(Keys(Run(Init, steps).rooms))
    decreases |steps|
  {
    ReachableInv(steps);
    var st := Run(Init, steps);
    forall r | 0 <= r < |st.rooms| ensures Keys(st.rooms)[r].id == NewId(r) {
      assert RoomOk(st, r);
    }
    if n < |steps| {
      var before := steps[..|steps| - 1];
      RoomsAreForEver(before, n);
      assert before[..n] == steps[..n];
      StepKeepsRooms(Run(Init, before), steps[|steps| - 1]);
    } else {
      assert steps[..n] == steps;
    }
  }
}
