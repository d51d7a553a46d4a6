/**
 One client session over the shared directory, changed in place: the handlers of `tcp_accept` run one
 after the other. Each is proved against the same functions as the server's step machine.
 */
module Sessions {
  import opened ChannelModel
  import opened Channels
  import opened Requests
  import opened ChatRooms
  import opened Framing

  ghost function ListsOf(rooms: seq<TcpChatRoom>): (lists: seq<seq<Channel<string>>>)
    reads rooms
    ensures |lists| == |rooms| && forall i :: 0 <= i < |rooms| ==> lists[i] == rooms[i].connections
  {
    seq(|rooms|, i requires 0 <= i < |rooms| reads rooms => rooms[i].connections)
  }

  /** The lists hold known channels, none of them in two places. */
  ghost predicate Separate(lists: seq<seq<Channel<string>>>, channels: set<Channel<string>>) {
    && (forall i, k :: 0 <= i < |lists| && 0 <= k < |lists[i]| ==> lists[i][k] in channels)
    && (forall i, j, k :: 0 <= i < |lists| && 0 <= j < k < |lists[i]| ==> lists[i][j] != lists[i][k])
    && (forall i, j, c :: 0 <= i < |lists| && 0 <= j < |lists| && i != j && c in lists[i] ==> c !in lists[j])
  }

  /** The lists after channel `c` has joined room `r`, which may be a new room. */
  ghost function WithChannel(lists: seq<seq<Channel<string>>>, r: nat, c: Channel<string>): seq<seq<Channel<string>>>
    requires r <= |lists|
  {
    if r == |lists| then lists + [[c]] else lists[r := lists[r] + [c]]
  }

  lemma FirstOfNewRoom(lists: seq<seq<Channel<string>>>, c: Channel<string>)
    ensures WithChannel(lists + [[]], |lists|, c) == WithChannel(lists, |lists|, c)
  {
    assert [] + [c] == [c];
  }

  lemma NewChannelIsSeparate(lists: seq<seq<Channel<string>>>, channels: set<Channel<string>>,
                             r: nat, c: Channel<string>)
    requires Separate(lists, channels) && r < |lists| && c !in channels
    ensures Separate(WithChannel(lists, r, c), channels + {c})
  {
  }

  /** Rooms are distinct objects, and so are all channels in their lists. */
  ghost predicate Sound(directory: Directory)
    reads directory, directory.rooms, directory.channels
  {
    && directory.Valid()
    && (forall i, j :: 0 <= i < j < |directory.rooms| ==> directory.rooms[i] != directory.rooms[j])
    && Separate(ListsOf(directory.rooms), directory.channels)
    && forall c :: c in directory.channels ==> c.Valid()
  }

  lemma RoomIsValid(directory: Directory, i: nat)
    requires Sound(directory) && i < |directory.rooms|
    ensures directory.rooms[i].Valid()
    ensures forall c :: c in directory.rooms[i].connections ==> c in directory.channels
  {
    var lists := ListsOf(directory.rooms);
    assert lists[i] == directory.rooms[i].connections;
  }

  /** The loop of `cleanup`; `all` are the channels to account for. */
  method CloseAll(channels: set<Channel<string>>, ghost all: set<Channel<string>>)
    requires channels <= all && forall c :: c in all ==> c.Valid()
    modifies channels
    ensures forall c :: c in all ==>
      c.Valid() && c.View() == if c in channels then Shut(old(c.View())) else old(c.View())
  {
    var todo := channels;
    while todo != {}
      invariant todo <= channels
      invariant forall c :: c in all ==>
        c.Valid() && c.View() == if c in channels - todo then Shut(old(c.View())) else old(c.View())
      decreases todo
    {
      var c :| c in todo;
      c.Close();
      todo := todo - {c};
    }
  }

  // ---------------------------------------------------------------------------
  // What a session is served when no one else is at work
  // ---------------------------------------------------------------------------

  /** What the JSON parser makes of a line that is not empty. */
  type Parsed = line: Line | !line.Blank? witness NotObject

  /** An empty line is ignored before it is parsed. */
  function LineOf(data: Bytes, parse: Bytes -> Parsed): Line {
    if data == [] then Blank else parse(data)
  }

  /** Only an empty line is blank, and it does nothing. */
  lemma BlankIffEmpty(data: Bytes, parse: Bytes -> Parsed, keys: seq<Key>, subs: set<nat>)
    ensures LineOf(data, parse).Blank? <==> data == []
    ensures data == [] ==> Decide(keys, subs, LineOf(data, parse)) == Ignore
  {
  }

  /** What the session loop works on, at one moment. */
  datatype Moment = Moment(lines: seq<Bytes>, keys: seq<Key>, subs: set<nat>, replies: seq<Wire>)

  /** The directory after the decision. */
  function KeysAfter(d: Decision, keys: seq<Key>): seq<Key> {
    match d
    case Create(name) => keys + [Key(NewId(|keys|), name)]
    case _ => keys
  }

  /** The rooms joined after the decision. */
  function SubsAfter(d: Decision, keys: seq<Key>, subs: set<nat>): set<nat> {
    match d
    case Join(r) => subs + {r}
    case Create(_) => subs + {|keys|}
    case _ => subs
  }

  /** How a line is judged, by the directory and the subscriptions of the moment. */
  type Judge = (seq<Key>, set<nat>, Bytes) -> Decision

  function Judging(parse: Bytes -> Parsed): Judge {
    (keys, subs, data) => Decide(keys, subs, LineOf(data, parse))
  }

  ghost predicate Judges(judge: Judge, parse: Bytes -> Parsed) {
    forall keys, subs, data {:trigger Decide(keys, subs, LineOf(data, parse))} ::
      judge(keys, subs, data) == Decide(keys, subs, LineOf(data, parse))
  }

  /** The decisions on lines, each made on what the ones before it left, up to the first that ends the session. */
  function Decisions(lines: seq<Bytes>, judge: Judge, keys: seq<Key>, subs: set<nat>): seq<Decision> {
    if lines == [] then []
    else
      var d := judge(keys, subs, lines[0]);
      [d] + (if d.Leave? then [] else Decisions(lines[1..], judge, KeysAfter(d, keys), SubsAfter(d, keys, subs)))
  }

  /** The replies to decisions made one after the other. */
  function Answers(ds: seq<Decision>, keys: seq<Key>, subs: set<nat>): seq<Wire> {
    if ds == [] then []
    else ReplyFor(ds[0], keys, subs) + Answers(ds[1..], KeysAfter(ds[0], keys), SubsAfter(ds[0], keys, subs))
  }

  /** One pass of the loop takes it from `a` to `b` by the decision `d`; at the end of the stream it leaves. */
  predicate Passed(a: Moment, d: Decision, b: Moment, judge: Judge) {
    if a.lines == [] then d == Leave && b.replies == a.replies
    else
      d == judge(a.keys, a.subs, a.lines[0]) &&
      b == Moment(a.lines[1..], KeysAfter(d, a.keys), SubsAfter(d, a.keys, a.subs),
                  a.replies + ReplyFor(d, a.keys, a.subs))
  }

  /** What the session will answer from a moment on. */
  function Due(m: Moment, judge: Judge): seq<Wire> {
    Answers(Decisions(m.lines, judge, m.keys, m.subs), m.keys, m.subs)
  }

  lemma AnswersGoOn(d: Decision, ds: seq<Decision>, keys: seq<Key>, subs: set<nat>)
    ensures Answers([d] + ds, keys, subs) ==
            ReplyFor(d, keys, subs) + Answers(ds, KeysAfter(d, keys), SubsAfter(d, keys, subs))
  {
    assert ([d] + ds)[1..] == ds;
  }

  /** A pass settles its own reply. */
  lemma PassSettles(a: Moment, d: Decision, b: Moment, judge: Judge)
    requires Passed(a, d, b, judge)
    ensures a.replies + Due(a, judge) == b.replies + (if d.Leave? then [] else Due(b, judge))
  {
    if a.lines != [] {
      var rest := if d.Leave? then [] else Decisions(b.lines, judge, b.keys, b.subs);
      AnswersGoOn(d, rest, a.keys, a.subs);
      Reassociate(a.replies, ReplyFor(d, a.keys, a.subs), Answers(rest, b.keys, b.subs));
    }
  }

  lemma Reassociate(xs: seq<Wire>, ys: seq<Wire>, zs: seq<Wire>)
    ensures xs + (ys + zs) == xs + ys + zs
  {
  }

  ghost predicate Foresees(due: Moment -> seq<Wire>, judge: Judge) {
    forall m {:trigger Due(m, judge)} :: due(m) == Due(m, judge)
  }

  class Session {
    const directory: Directory
    const writeChan: Channel<Wire>
    /** `current_subscriptions`, by the room's position in the directory. */
    var subs: map<nat, Channel<string>>

    ghost predicate Valid()
      reads this, directory, directory.rooms, directory.channels, writeChan
    {
      && Sound(directory) && writeChan.Valid()
      && forall r :: r in subs ==> r < |directory.rooms| && subs[r] in directory.rooms[r].connections
    }

    constructor (directory: Directory)
      requires Sound(directory)
      ensures Valid() && this.directory == directory && subs == map[]
      ensures fresh(writeChan) && writeChan.View() == Fresh() && writeChan.accepted == []
    {
      this.directory, subs := directory, map[];
      writeChan := new Channel();
    }

    predicate AllClosed()
      reads this, subs.Values, writeChan
    {
      writeChan.closed && forall c :: c in subs.Values ==> c.closed
    }

    /** `handle_sub` up to the call of `sub_to_room`. */
    method HandleSub(fields: map<string, Json>) returns (d: Decision)
      requires Valid()
      ensures d == DecideSub(directory.Keys(), subs.Keys, fields)
    {
      if "grp" !in fields {
        return Refuse(SubNoGrp);
      }
      var grp := ParseId(fields["grp"]);
      if grp.None? {
        return Refuse(SubBadGrp);
      }
      if exists r :: r in subs && directory.rooms[r].id == grp.value {
        return Refuse(SubTwice);
      }
      var room := directory.TryFindRoom(grp.value);
      d := if room.Some? then Join(room.value) else Refuse(SubNoRoom);
    }

    method ParseMessage(fields: map<string, Json>) returns (d: Decision)
      requires Valid()
      ensures d == DecideMsg(directory.Keys(), fields)
    {
      if "grp" !in fields {
        return Refuse(MsgNoGrp);
      }
      if "msg" !in fields {
        return Refuse(MsgNoMsg);
      }
      var grp := ParseId(fields["grp"]);
      if grp.None? {
        return Refuse(MsgBadGrp);
      }
      var room := directory.TryFindRoom(grp.value);
      if room.None? {
        return Refuse(MsgNoRoom);
      }
      d := if fields["msg"].Text? then Post(room.value, fields["msg"].text) else Leave;
    }

    /** `sub_to_room`. */
    method SubToRoom(r: nat) returns (channel: Channel<string>)
      requires Sound(directory) && r < |directory.rooms|
      modifies directory`channels, directory.rooms[r]
      ensures Sound(directory) && fresh(channel) && channel.View() == Fresh()
      ensures directory.channels == old(directory.channels) + {channel}
      ensures ListsOf(directory.rooms) == WithChannel(old(ListsOf(directory.rooms)), r, channel)
    {
      ghost var lists := ListsOf(directory.rooms);
      RoomIsValid(directory, r);
      channel := directory.rooms[r].Subscribe();
      directory.channels := directory.channels + {channel};
      NewChannelIsSeparate(lists, old(directory.channels), r, channel);
      forall c | c in directory.channels ensures c.Valid() {
        assert c == channel || old(c.Valid());
      }
      assert ListsOf(directory.rooms) == WithChannel(lists, r, channel);
    }

    /** The new channel and its entry in the map. */
    method Enlist(r: nat) returns (channel: Channel<string>)
      requires Valid() && r < |directory.rooms| && r !in subs
      modifies this, directory`channels, directory.rooms[r]
      ensures Valid() && fresh(channel) && channel.View() == Fresh()
      ensures directory.channels == old(directory.channels) + {channel}
      ensures subs == old(subs)[r := channel]
      ensures ListsOf(directory.rooms) == WithChannel(old(ListsOf(directory.rooms)), r, channel)
    {
      channel := SubToRoom(r);
      subs := subs[r := channel];
    }

    /** The `msg` branch: membership, then the fan-out. */
    method Broadcast(r: nat, text: string)
      requires Valid() && r < |directory.rooms|
      modifies directory.rooms[r].connections, writeChan
      ensures Valid() && directory.Keys() == old(directory.Keys())
      ensures r in subs ==> writeChan.View() == old(writeChan.View()) && writeChan.accepted == old(writeChan.accepted)
      ensures r !in subs ==>
        writeChan.View() == Put(old(writeChan.View()), NOT_SUBSCRIBED) &&
        writeChan.accepted == old(writeChan.accepted) + (if writeChan.closed then [] else [NOT_SUBSCRIBED])
      ensures forall c :: c in directory.channels ==>
        c.View() == if r in subs && c in directory.rooms[r].connections && c != subs[r]
                    then Put(old(c.View()), text) else old(c.View())
    {
      if r !in subs {
        writeChan.Write(NOT_SUBSCRIBED);
      } else {
        RoomIsValid(directory, r);
        directory.rooms[r].FanOut(subs[r], text);
      }
      assert unchanged(directory) && unchanged(directory.rooms);
    }

    /** A room that the directory does not hold yet. */
    method CreateRoom(name: string)
      requires Valid()
      modifies directory
      ensures Valid() && directory.Keys() == old(directory.Keys()) + [Key(NewId(|old(directory.rooms)|), name)]
      ensures directory.channels == old(directory.channels)
      ensures |directory.rooms| == |old(directory.rooms)| + 1 && old(directory.rooms) <= directory.rooms
      ensures fresh(directory.rooms[|old(directory.rooms)|])
      ensures ListsOf(directory.rooms) == old(ListsOf(directory.rooms)) + [[]]
    {
      var room := directory.CreateRoom(name);
      assert ListsOf(directory.rooms) == old(ListsOf(directory.rooms)) + [[]];
    }

    /** `cleanup`, which every way out of the session runs. */
    method Cleanup()
      requires Valid()
      modifies subs.Values, writeChan
      ensures Valid() && AllClosed() && directory.Keys() == old(directory.Keys())
      ensures writeChan.View() == Shut(old(writeChan.View())) && writeChan.accepted == old(writeChan.accepted)
      ensures forall c :: c in directory.channels ==>
        c.View() == if c in subs.Values then Shut(old(c.View())) else old(c.View())
    {
      forall c | c in subs.Values ensures c in directory.channels {
        var r :| r in subs && subs[r] == c;
        RoomIsValid(directory, r);
      }
      CloseAll(subs.Values, directory.channels);
      label Closed:
      writeChan.Close();
      assert unchanged(directory) && unchanged(directory.rooms) && unchanged@Closed(directory.channels);
    }

    /** `sub_ok` and `csub_ok`: into the room, and the confirmation. */
    method JoinRoom(r: nat, created: bool)
      requires Valid() && r < |directory.rooms| && r !in subs
      modifies this, directory`channels, directory.rooms[r], writeChan
      ensures Valid() && r in subs && fresh(subs[r]) && subs == old(subs)[r := subs[r]] && subs[r].View() == Fresh()
      ensures ListsOf(directory.rooms) == WithChannel(old(ListsOf(directory.rooms)), r, subs[r])
      ensures unchanged(old(directory.channels))
      ensures directory.channels == old(directory.channels) + {subs[r]}
      ensures writeChan.accepted ==
        old(writeChan.accepted) + (if writeChan.closed then [] else [Confirmation(directory.Keys()[r], created)])
      ensures writeChan.closed == old(writeChan.closed)
    {
      var channel := Enlist(r);
      writeChan.Write(Confirmation(Key(directory.rooms[r].id, directory.rooms[r].name), created));
    }

    method CreateAndJoin(name: string)
      requires Valid()
      modifies this, directory, writeChan
      ensures Valid() && unchanged(old(directory.channels)) && |old(directory.rooms)| in subs
      ensures subs == old(subs)[|old(directory.rooms)| := subs[|old(directory.rooms)|]]
      ensures |directory.rooms| == |old(directory.rooms)| + 1 && old(directory.rooms) <= directory.rooms
      ensures fresh(directory.rooms[|old(directory.rooms)|]) && subs[|old(directory.rooms)|].View() == Fresh()
      ensures ListsOf(directory.rooms) ==
        WithChannel(old(ListsOf(directory.rooms)), |old(directory.rooms)|, subs[|old(directory.rooms)|])
      ensures old(directory.channels) <= directory.channels && fresh(directory.channels - old(directory.channels))
      ensures directory.Keys() == old(directory.Keys()) + [Key(NewId(|old(directory.rooms)|), name)]
      ensures writeChan.closed == old(writeChan.closed)
      ensures writeChan.accepted ==
        old(writeChan.accepted) +
        (if writeChan.closed then [] else [Confirmation(Key(NewId(|old(directory.rooms)|), name), true)])
    {
      ghost var lists := ListsOf(directory.rooms);
      CreateRoom(name);
      JoinRoom(|directory.rooms| - 1, true);
      FirstOfNewRoom(lists, subs[|directory.rooms| - 1]);
    }

    /** Which handler a line goes to, and what it finds. */
    method Dispatch(line: Line) returns (d: Decision)
      requires Valid()
      ensures d == Decide(directory.Keys(), subs.Keys, line)
      ensures Fits(d)
    {
      DecisionInRange(directory.Keys(), subs.Keys, line);
      if line.Blank? {
        return Ignore;
      }
      if line.Malformed? {
        return Refuse(ParseFailed(line.reason));
      }
      if line.NotObject? || "type" !in line.fields || !line.fields["type"].Text? {
        return Refuse(InvalidJson);
      }
      var kind := CStr(line.fields["type"].text);
      if kind == "sub" {
        d := HandleSub(line.fields);
      } else if kind == "desub" {
        d := Leave;
      } else if kind == "csub" {
        d := DecideCsub(line.fields);
      } else if kind == "msg" {
        d := ParseMessage(line.fields);
      } else {
        d := Refuse(InvalidJson);
      }
    }

    /** A line that opens a room, or lets the session into one. */
    method Admit(d: Decision)
      requires Valid() && !writeChan.closed && (d.Create? || (d.Join? && d.room < |directory.rooms| && d.room !in subs))
      modifies this, directory, directory.rooms, writeChan
      ensures Valid() && !writeChan.closed && Grown(old(directory.rooms), old(directory.channels))
      ensures directory.Keys() ==
        old(directory.Keys()) + (if d.Create? then [Key(NewId(|old(directory.rooms)|), d.name)] else [])
      ensures var r := if d.Create? then |old(directory.rooms)| else d.room;
        r in subs && subs == old(subs)[r := subs[r]] && subs[r].View() == Fresh() &&
        ListsOf(directory.rooms) == WithChannel(old(ListsOf(directory.rooms)), r, subs[r])
      ensures writeChan.accepted == old(writeChan.accepted) + ReplyFor(d, old(directory.Keys()), old(subs).Keys)
      ensures unchanged(old(directory.channels))
    {
      match d
      case Create(name) => CreateAndJoin(name);
      case Join(r) => JoinRoom(r, false);
    }

    /** Any other line. */
    method Conclude(d: Decision)
      requires Valid() && !writeChan.closed && !d.Create? && !d.Join? && (d.Post? ==> d.room < |directory.rooms|)
      modifies directory.channels, writeChan
      ensures Valid() && directory.Keys() == old(directory.Keys())
      ensures ListsOf(directory.rooms) == old(ListsOf(directory.rooms))
      ensures if d.Leave? then AllClosed() else !writeChan.closed
      ensures writeChan.accepted == old(writeChan.accepted) + ReplyFor(d, directory.Keys(), subs.Keys)
      ensures forall c :: c in directory.channels ==>
        c.View() ==
          if d.Post? && d.room in subs && c in directory.rooms[d.room].connections && c != subs[d.room]
          then Put(old(c.View()), d.text)
          else if d.Leave? && c in subs.Values then Shut(old(c.View()))
          else old(c.View())
    {
      match d
      case Ignore =>
      case Answer(wire) => writeChan.Write(wire);
      case Post(r, text) => Broadcast(r, text);
      case Leave => Cleanup();
    }

    /** The directory holds what it held before, and new objects. */
    twostate predicate Grown(rooms: seq<TcpChatRoom>, channels: set<Channel<string>>)
      reads this, directory
    {
      && rooms <= directory.rooms && channels <= directory.channels
      && (forall i :: |rooms| <= i < |directory.rooms| ==> fresh(directory.rooms[i]))
      && fresh(directory.channels - channels)
    }

    /** The target of a decision exists, and a room to join is new to the session. */
    predicate Fits(d: Decision)
      reads this, directory
    {
      (d.Join? ==> d.room < |directory.rooms| && d.room !in subs) && (d.Post? ==> d.room < |directory.rooms|)
    }

    /**
     A decision is carried out: the reply is the one the step machine's fold assigns to it, and the directory, the
     lists, the subscriptions and the channels change as the decision says and in no other way.
     */
    method CarryOut(d: Decision)
      requires Valid() && !writeChan.closed && Fits(d)
      modifies this, directory, directory.rooms, directory.channels, writeChan
      ensures Valid() && Grown(old(directory.rooms), old(directory.channels))
      ensures writeChan.accepted ==
        old(writeChan.accepted) + ReplyFor(d, old(directory.Keys()), old(subs).Keys)
      ensures if d.Leave? then AllClosed() else !writeChan.closed
      ensures directory.Keys() == KeysAfter(d, old(directory.Keys()))
      ensures subs.Keys == SubsAfter(d, old(directory.Keys()), old(subs).Keys)
      ensures !d.Create? && !d.Join? ==> subs == old(subs)
      ensures d.Create? || d.Join? ==>
        var r := if d.Create? then |old(directory.rooms)| else d.room;
        r in subs && subs == old(subs)[r := subs[r]] && subs[r].View() == Fresh() &&
        ListsOf(directory.rooms) == WithChannel(old(ListsOf(directory.rooms)), r, subs[r])
      ensures !d.Create? && !d.Join? ==> ListsOf(directory.rooms) == old(ListsOf(directory.rooms))
      ensures forall c :: c in old(directory.channels) ==>
        c.View() ==
          if d.Post? && d.room in subs && c in directory.rooms[d.room].connections && c != subs[d.room]
          then Put(old(c.View()), d.text)
          else if d.Leave? && c in subs.Values then Shut(old(c.View()))
          else old(c.View())
    {
      if d.Create? || d.Join? {
        Admit(d);
      } else {
        Conclude(d);
      }
    }

    /** One line: it is judged, and the decision is carried out. */
    method Serve(line: Line) returns (d: Decision)
      requires Valid() && !writeChan.closed
      modifies this, directory, directory.rooms, directory.channels, writeChan
      ensures Valid() && Grown(old(directory.rooms), old(directory.channels))
      ensures d == Decide(old(directory.Keys()), old(subs).Keys, line)
      ensures writeChan.accepted ==
        old(writeChan.accepted) + ReplyFor(d, old(directory.Keys()), old(subs).Keys)
      ensures if d.Leave? then AllClosed() else !writeChan.closed
      ensures directory.Keys() == KeysAfter(d, old(directory.Keys()))
      ensures subs.Keys == SubsAfter(d, old(directory.Keys()), old(subs).Keys)
      ensures !d.Create? && !d.Join? ==> subs == old(subs)
      ensures d.Create? || d.Join? ==>
        var r := if d.Create? then |old(directory.rooms)| else d.room;
        r in subs && subs == old(subs)[r := subs[r]] && subs[r].View() == Fresh() &&
        ListsOf(directory.rooms) == WithChannel(old(ListsOf(directory.rooms)), r, subs[r])
      ensures !d.Create? && !d.Join? ==> ListsOf(directory.rooms) == old(ListsOf(directory.rooms))
      ensures forall c :: c in old(directory.channels) ==>
        c.View() ==
          if d.Post? && d.room in subs && c in directory.rooms[d.room].connections && c != subs[d.room]
          then Put(old(c.View()), d.text)
          else if d.Leave? && c in subs.Values then Shut(old(c.View()))
          else old(c.View())
    {
      d := Dispatch(line);
      CarryOut(d);
    }

    /** What the loop needs to know of a line it has served. */
    method ServeData(data: Bytes, parse: Bytes -> Parsed, ghost judge: Judge) returns (d: Decision)
      requires Valid() && !writeChan.closed && Judges(judge, parse)
      modifies this, directory, directory.rooms, directory.channels, writeChan
      ensures Valid() && Grown(old(directory.rooms), old(directory.channels))
      ensures if d.Leave? then AllClosed() else !writeChan.closed
      ensures d == judge(old(directory.Keys()), old(subs).Keys, data)
      ensures directory.Keys() == KeysAfter(d, old(directory.Keys()))
      ensures subs.Keys == SubsAfter(d, old(directory.Keys()), old(subs).Keys)
      ensures writeChan.accepted ==
        old(writeChan.accepted) + ReplyFor(d, old(directory.Keys()), old(subs).Keys)
    {
      d := Serve(LineOf(data, parse));
    }

    ghost function Now(reader: LineReader): Moment
      reads this, directory, writeChan, reader
    {
      Moment(reader.lines, directory.Keys(), subs.Keys, writeChan.accepted)
    }

    /** One pass of the session loop: the next line of the stream is served, or the peer has hung up. */
    method Turn(reader: LineReader, parse: Bytes -> Parsed, ghost judge: Judge) returns (d: Decision)
      requires Valid() && reader.Valid() && !writeChan.closed && Judges(judge, parse)
      modifies this, directory, directory.rooms, directory.channels, writeChan, reader
      ensures Valid() && reader.Valid() && Grown(old(directory.rooms), old(directory.channels))
      ensures if d.Leave? then AllClosed() else !writeChan.closed && |reader.lines| < |old(reader.lines)|
      ensures Passed(old(Now(reader)), d, Now(reader), judge)
    {
      var data := reader.NextLine();
      if data.None? {
        Cleanup();
        return Leave;
      }
      d := ServeData(data.value, parse, judge);
    }

    /** A pass, and what is due before and after it. */
    method SettlingTurn(reader: LineReader, parse: Bytes -> Parsed, ghost judge: Judge, ghost due: Moment -> seq<Wire>)
      returns (d: Decision)
      requires Valid() && reader.Valid() && !writeChan.closed && Judges(judge, parse) && Foresees(due, judge)
      modifies this, directory, directory.rooms, directory.channels, writeChan, reader
      ensures Valid() && reader.Valid() && Grown(old(directory.rooms), old(directory.channels))
      ensures if d.Leave? then AllClosed() else !writeChan.closed && |reader.lines| < |old(reader.lines)|
      ensures old(writeChan.accepted) + old(due(Now(reader))) ==
              writeChan.accepted + (if d.Leave? then [] else due(Now(reader)))
    {
      ghost var a := Now(reader);
      d := Turn(reader, parse, judge);
      PassSettles(a, d, Now(reader), judge);
    }

    method Loop(reader: LineReader, parse: Bytes -> Parsed, ghost judge: Judge, ghost due: Moment -> seq<Wire>)
      requires Valid() && reader.Valid() && !writeChan.closed && Judges(judge, parse) && Foresees(due, judge)
      modifies this, directory, directory.rooms, directory.channels, writeChan, reader
      ensures Valid() && AllClosed()
      ensures writeChan.accepted == old(writeChan.accepted) + old(due(Now(reader)))
    {
      ghost var all := writeChan.accepted + due(Now(reader));
      var d := Ignore;
      while !d.Leave?
        invariant Valid() && reader.Valid() && Grown(old(directory.rooms), old(directory.channels))
        invariant if d.Leave? then AllClosed() else !writeChan.closed
        invariant all == writeChan.accepted + (if d.Leave? then [] else due(Now(reader)))
        decreases !d.Leave?, |reader.lines|
      {
        d := SettlingTurn(reader, parse, judge, due);
      }
    }

    /**
     The session loop on a connection with no one else at work. The lines of the stream are served in order, up
     to the first that ends the session, or until the peer hangs up. The replies are the fold of the decisions on
     them, and either way every channel of the session has been closed.
     */
    method Run(reader: LineReader, parse: Bytes -> Parsed)
      requires Valid() && reader.Valid() && !writeChan.closed
      modifies this, directory, directory.rooms, directory.channels, writeChan, reader
      ensures Valid() && AllClosed()
      ensures writeChan.accepted == old(writeChan.accepted) + Due(old(Now(reader)), Judging(parse))
    {
      Loop(reader, parse, Judging(parse), m => Due(m, Judging(parse)));
    }
  }
}
