/** The coroutines that move messages on, as one thread runs them until they wait or end. */
module Coroutines {
  import opened ChannelModel
  import opened Channels
  import opened Requests

  /** The frames the listener makes of room messages. */
  function Relays(texts: seq<string>, name: string): (frames: seq<Wire>)
    ensures |frames| == |texts| && forall k :: 0 <= k < |texts| ==> frames[k] == Relay(texts[k], name)
  {
    seq(|texts|, k requires 0 <= k < |texts| => Relay(texts[k], name))
  }

  /** What a read leaves of the queue. */
  lemma OneRead<T>(taken: seq<T>, queue: seq<T>, x: T, queue': seq<T>)
    requires taken + queue == taken + [x] + queue'
    ensures queue == [x] + queue'
  {
    assert taken + [x] + queue' == taken + ([x] + queue');
    assert queue == (taken + queue)[|taken|..];
  }

  /**
   `spawn_listener`. On an open channel it forwards everything queued, in order, and waits for more; on a
   closed one it ends at once, and what is still queued is never forwarded.
   */
  method SpawnListener(readChan: Channel<string>, writeChan: Channel<Wire>, name: string)
    requires readChan.Valid() && writeChan.Valid() && readChan.reader == Away
    modifies readChan, writeChan
    ensures readChan.Valid() && writeChan.Valid()
    ensures readChan.owners == old(readChan.owners) && writeChan.owners == old(writeChan.owners)
    ensures writeChan.closed == old(writeChan.closed) && writeChan.taken == old(writeChan.taken)
    ensures readChan.accepted == old(readChan.accepted)
    ensures writeChan.reader ==
      if old(readChan.closed) || old(readChan.queue) == [] || writeChan.closed then old(writeChan.reader)
      else Woken(old(writeChan.reader))
    ensures old(readChan.closed) ==>
      readChan.View() == old(readChan.View()) && writeChan.View() == old(writeChan.View())
    ensures !old(readChan.closed) ==>
      readChan.View() == Chan([], false, Parked) &&
      writeChan.accepted ==
      old(writeChan.accepted) + (if writeChan.closed then [] else Relays(old(readChan.queue), name))
  {
    ghost var forwarded: seq<string> := [];
    while readChan.owners > 0
      invariant readChan.Valid() && writeChan.Valid() && readChan.reader == Away
      invariant readChan.owners == old(readChan.owners) && writeChan.owners == old(writeChan.owners)
      invariant readChan.closed == old(readChan.closed) && readChan.accepted == old(readChan.accepted)
      invariant writeChan.closed == old(writeChan.closed) && writeChan.taken == old(writeChan.taken)
      invariant forwarded + readChan.queue == old(readChan.queue)
      invariant writeChan.accepted ==
                old(writeChan.accepted) + (if writeChan.closed then [] else Relays(forwarded, name))
      invariant writeChan.reader ==
                if forwarded == [] || writeChan.closed then old(writeChan.reader) else Woken(old(writeChan.reader))
      invariant forwarded == [] ==>
                readChan.View() == old(readChan.View()) && writeChan.View() == old(writeChan.View())
      invariant readChan.closed ==> forwarded == []
      decreases |readChan.queue|
    {
      var open := readChan.IsOpen();
      if !open {
        break;
      }
      ghost var taken, queue := readChan.taken, readChan.queue;
      var data := readChan.AsyncRead([]);
      if !data.Value? {
        return;
      }
      OneRead(taken, queue, data.value, readChan.queue);
      writeChan.Write(Relay(data.value, name));
      assert Relays(forwarded + [data.value], name) == Relays(forwarded, name) + [Relay(data.value, name)];
      forwarded := forwarded + [data.value];
    }
  }

  /**
   `socket_writer`, on a socket whose sends fail after the first `good` ones. It sends what is queued, in
   order, even after the channel has been closed; a failing send loses its frame and ends the writer.
   */
  method SocketWriter(writeChan: Channel<Wire>, good: nat) returns (sent: seq<Wire>, failed: bool)
    requires writeChan.Valid() && writeChan.reader == Away
    modifies writeChan
    ensures writeChan.Valid() && writeChan.owners == old(writeChan.owners)
    ensures writeChan.accepted == old(writeChan.accepted) && writeChan.closed == old(writeChan.closed)
    ensures failed <==> good < |old(writeChan.queue)|
    ensures if failed
            then |sent| == good && sent + [old(writeChan.queue)[good]] + writeChan.queue == old(writeChan.queue)
            else sent == old(writeChan.queue) && writeChan.queue == []
    ensures writeChan.reader == if failed || writeChan.closed then Away else Parked
  {
    sent, failed := [], false;
    while true
      invariant writeChan.Valid() && writeChan.reader == Away && writeChan.owners == old(writeChan.owners)
      invariant writeChan.accepted == old(writeChan.accepted) && writeChan.closed == old(writeChan.closed)
      invariant sent + writeChan.queue == old(writeChan.queue) && |sent| <= good && !failed
      decreases |writeChan.queue|
    {
      ghost var taken, queue := writeChan.taken, writeChan.queue;
      var data := writeChan.AsyncRead([]);
      if !data.Value? {
        return;
      }
      OneRead(taken, queue, data.value, writeChan.queue);
      if |sent| == good {
        return sent, true;
      }
      sent := sent + [data.value];
    }
  }
}
