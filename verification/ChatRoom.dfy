/** `TCPChatRoom`, its two critical sections, and the server's directory of rooms. */
module ChatRooms {
  import opened Common
  import opened ChannelModel
  import opened Channels
  import opened Requests

  class TcpChatRoom {
    const name: string
    const id: U64
    /** The `weak_ptr`s in the order of subscription. Nothing is ever removed. */
    var connections: seq<Channel<string>>

    ghost predicate Valid()
      reads this, connections
    {
      && (forall k :: 0 <= k < |connections| ==> connections[k].Valid())
      && (forall j, k :: 0 <= j < k < |connections| ==> connections[j] != connections[k])
    }

    constructor (name: string, id: U64)
      ensures Valid() && connections == [] && this.name == name && this.id == id
    {
      this.name, this.id, connections := name, id, [];
    }

    /** `sub_to_room`: a new channel, owned by the caller, goes to the end. */
    method Subscribe() returns (channel: Channel<string>)
      requires Valid()
      modifies this
      ensures Valid() && fresh(channel) && connections == old(connections) + [channel]
      ensures channel.Valid() && channel.View() == Fresh() && channel.owners == 1
    {
      channel := new Channel();
      connections := connections + [channel];
    }

    /**
     The fan-out under the room mutex, for the sender whose channel is `current`. The loop skips expired
     entries, and yet every entry ever pushed but the sender's ends up as if it had been written to.
     */
    method FanOut(current: Channel<string>, message: string)
      requires Valid() && current.Valid()
      modifies connections
      ensures Valid() && current.Valid() && connections == old(connections)
      ensures forall c :: c in connections ==>
        c.View() == (if c == current then old(c.View()) else Put(old(c.View()), message)) &&
        c.taken == old(c.taken) && c.owners == old(c.owners)
    {
      var k := 0;
      while k < |connections|
        invariant 0 <= k <= |connections|
        invariant Valid() && current.Valid() && unchanged(this)
        invariant forall j :: k <= j < |connections| ==> unchanged(connections[j])
        invariant forall j :: 0 <= j < k ==>
          connections[j].View() == (if connections[j] == current then old(connections[j].View())
                                    else Put(old(connections[j].View()), message)) &&
          connections[j].taken == old(connections[j].taken) && connections[j].owners == old(connections[j].owners)
      {
        var locked := connections[k];
        if locked.owners > 0 && locked != current {
          locked.Write(message);
        }
        k := k + 1;
      }
    }
  }

  class Directory {
    var rooms: seq<TcpChatRoom>
    /** The channels of all connection lists. */
    ghost var channels: set<Channel<string>>

    /** Ids are given out in creation order and never change. */
    ghost predicate Valid()
      reads this
    {
      forall k :: 0 <= k < |rooms| ==> rooms[k].id == NewId(k)
    }

    function Keys(): (keys: seq<Key>)
      reads this
      ensures |keys| == |rooms| && forall k :: 0 <= k < |rooms| ==> keys[k] == Key(rooms[k].id, rooms[k].name)
    {
      seq(|rooms|, k requires 0 <= k < |rooms| reads this => Key(rooms[k].id, rooms[k].name))
    }

    constructor ()
      ensures Valid() && rooms == [] && channels == {}
    {
      rooms, channels := [], {};
    }

    /** The critical section of `handle_create_and_sub`. */
    method CreateRoom(name: string) returns (room: TcpChatRoom)
      requires Valid()
      modifies this
      ensures Valid() && fresh(room) && room.Valid() && room.connections == []
      ensures channels == old(channels)
      ensures rooms == old(rooms) + [room] && Keys() == old(Keys()) + [Key(NewId(|old(rooms)|), name)]
    {
      room := new TcpChatRoom(name, (|rooms| + 1) % TWO64);
      rooms := rooms + [room];
    }

    /** `try_find_room`: a linear search. */
    method TryFindRoom(roomId: U64) returns (r: Option<nat>)
      ensures r == FindRoom(Keys(), roomId)
    {
      var k := 0;
      while k < |rooms|
        invariant 0 <= k <= |rooms|
        invariant FindRoom(Keys(), roomId) == FirstFrom(Keys(), KeyHasId(roomId), k)
      {
        if rooms[k].id == roomId {
          return Some(k);
        }
        k := k + 1;
      }
      return None;
    }
  }

  /** A directory built by `csub` requests alone. */
  predicate Numbered(keys: seq<Key>) {
    forall k :: 0 <= k < |keys| ==> keys[k].id == NewId(k)
  }

  /** Searching is indexing: while the ids have not wrapped around, id `n` is room number `n`. */
  lemma FindIsIndexing(keys: seq<Key>, id: U64)
    requires Numbered(keys) && |keys| < TWO64
    ensures FindRoom(keys, id) == if 1 <= id <= |keys| then Some(id - 1) else None
  {
    assert forall k :: 0 <= k < |keys| ==> keys[k].id == k + 1;
    if 1 <= id <= |keys| {
      assert keys[id - 1].id == id;
    }
  }

  /** The ids are distinct if and only if the counter has not wrapped around. */
  lemma IdsDistinctIffNoWrap(keys: seq<Key>)
    requires Numbered(keys)
    ensures (forall j, k :: 0 <= j < k < |keys| ==> keys[j].id != keys[k].id) <==> |keys| <= TWO64
  {
    if |keys| > TWO64 {
      assert keys[0].id == NewId(0) == 1 && keys[TWO64].id == NewId(TWO64) == 1;
    }
  }

  /** A negative id resolves only when 2^63 or more rooms exist: then its two's complement is a room. */
  lemma NegativeIdResolvesIffHuge(keys: seq<Key>, i: I64)
    requires Numbered(keys) && |keys| < TWO64 && i < 0
    ensures ParseId(Signed(i)) == Some(i + TWO64)
    ensures FindRoom(keys, i + TWO64).Some? <==> i + TWO64 <= |keys|
    ensures |keys| < 0x8000_0000_0000_0000 ==> FindRoom(keys, i + TWO64).None?
  {
    FindIsIndexing(keys, i + TWO64);
  }
}
