/** The channel as the source writes it: a queue, a flag and a timer, changed in place. */
module Channels {
  import opened ChannelModel

  /** What another task may do to a channel. */
  datatype Call<T> = WriteCall(x: T) | CloseCall

  function Apply<T>(c: Chan<T>, call: Call<T>): Chan<T> {
    match call
    case WriteCall(x) => Put(c, x)
    case CloseCall => Shut(c)
  }

  function ApplyAll<T>(c: Chan<T>, calls: seq<Call<T>>): Chan<T>
    decreases |calls|
  {
    if calls == [] then c else ApplyAll(Apply(c, calls[0]), calls[1..])
  }

  /** The writes among `calls` that come before the first close. */
  function Accepted<T>(calls: seq<Call<T>>): seq<T> {
    if calls == [] || calls[0].CloseCall? then [] else [calls[0].x] + Accepted(calls[1..])
  }

  /** A run of calls appends to an open queue what is accepted before the first close. */
  lemma {:induction false} ApplyAllQueues<T>(c: Chan<T>, calls: seq<Call<T>>)
    ensures var d := ApplyAll(c, calls);
      d.queue == c.queue + (if c.closed then [] else Accepted(calls)) &&
      (d.closed <==> c.closed || CloseCall in calls) &&
      d.reader == (if (!c.closed && calls != []) || CloseCall in calls then Woken(c.reader) else c.reader)
    decreases |calls|
  {
    if calls != [] {
      ApplyAllQueues(Apply(c, calls[0]), calls[1..]);
      assert calls == [calls[0]] + calls[1..];
      if !c.closed && calls[0].WriteCall? {
        assert c.queue + [calls[0].x] + Accepted(calls[1..]) == c.queue + ([calls[0].x] + Accepted(calls[1..]));
      }
    }
  }

  class Channel<T> {
    var queue: seq<T>
    var closed: bool
    var reader: Reader
    /** The number of `shared_ptr`s to the channel; at zero a `weak_ptr` to it is expired. */
    var owners: nat
    /** What was ever accepted, and what was ever read. */
    ghost var accepted: seq<T>
    ghost var taken: seq<T>

    ghost predicate Valid()
      reads this
    {
      accepted == taken + queue && (owners == 0 ==> closed)
    }

    function View(): Chan<T>
      reads this
    {
      Chan(queue, closed, reader)
    }

    constructor ()
      ensures Valid() && View() == Fresh() && owners == 1 && accepted == [] && taken == []
    {
      queue, closed, reader, owners := [], false, Away, 1;
      accepted, taken := [], [];
    }

    method IsOpen() returns (open: bool)
      ensures open == !View().closed
    {
      open := !closed;
    }

    method Close()
      requires Valid()
      modifies this
      ensures Valid() && View() == Shut(old(View()))
      ensures owners == old(owners) && accepted == old(accepted) && taken == old(taken)
    {
      closed := true;
      reader := Woken(reader);
    }

    method Write(msg: T)
      requires Valid()
      modifies this
      ensures Valid() && View() == Put(old(View()), msg)
      ensures owners == old(owners) && taken == old(taken)
      ensures accepted == if old(closed) then old(accepted) else old(accepted) + [msg]
    {
      if closed {
        return;
      }
      queue := queue + [msg];
      accepted := accepted + [msg];
      reader := Woken(reader);
    }

    /** The last owner's release runs the destructor, which closes the channel. */
    method Release()
      requires Valid() && owners > 0
      modifies this
      ensures Valid() && owners == old(owners) - 1
      ensures View() == if owners == 0 then Shut(old(View())) else old(View())
      ensures accepted == old(accepted) && taken == old(taken)
    {
      owners := owners - 1;
      if owners == 0 {
        closed := true;
        reader := Woken(reader);
      }
    }

    /**
     The coroutine `async_read` with one thread. While it is suspended the other tasks perform `others`;
     if they do nothing, the reader is still suspended at the end and `r` is `Empty`.
     A value is the oldest one accepted and not yet read; the read fails only on a channel that is
     closed and empty, so values accepted before a close stay readable after it.
     */
    method AsyncRead(others: seq<Call<T>>) returns (r: Polled<T>)
      requires Valid() && reader == Away
      modifies this
      ensures Valid() && owners == old(owners)
      ensures r.Value? ==> taken == old(taken) + [r.value] && reader == Away
      ensures !r.Value? ==> taken == old(taken) && queue == []
      ensures r.Aborted? <==> reader == Away && closed && taken == accepted && taken == old(taken)
      ensures r.Empty? <==> reader == Parked
      ensures r.Empty? ==> old(queue) == [] && !old(closed) && others == [] && !closed
      ensures var passed := if old(queue) == [] && !old(closed) then others else [];
        accepted == old(accepted) + (if old(closed) then [] else Accepted(passed)) &&
        (closed <==> old(closed) || CloseCall in passed)
    {
      reader := Polling;
      var pending := others;
      label Start:
      while true
        invariant Valid() && owners == old(owners) && taken == old(taken) && reader == Polling
        invariant pending == others || pending == []
        invariant pending == others ==> unchanged@Start(this)
        invariant pending != others ==>
                    old(queue) == [] && !old(closed) && (queue != [] || closed) &&
                    accepted == old(accepted) + Accepted(others) && (closed <==> CloseCall in others)
        decreases |pending|
      {
        if queue != [] {
          r := Value(queue[0]);
          queue, taken, reader := queue[1..], taken + [queue[0]], Away;
          return;
        }
        if closed {
          reader := Away;
          return Aborted;
        }
        reader := Parked;
        if pending == [] {
          return Empty;
        }
        Suspend(pending);
        pending := [];
      }
    }

    /** While the reader is suspended on the empty, open channel the other tasks perform `others`. */
    method Suspend(others: seq<Call<T>>)
      requires Valid() && reader == Parked && queue == [] && !closed && others != []
      modifies this
      ensures Valid() && owners == old(owners) && taken == old(taken) && reader == Polling
      ensures accepted == old(accepted) + Accepted(others) && (closed <==> CloseCall in others)
      ensures queue != [] || closed
    {
      var woken := ApplyAll(View(), others);
      ApplyAllQueues(View(), others);
      accepted := accepted + Accepted(others);
      queue, closed, reader := woken.queue, woken.closed, woken.reader;
    }
  }

  // ---------------------------------------------------------------------------
  // Every run of a channel
  // ---------------------------------------------------------------------------

  /** The critical sections of a channel and the start of the reader's wait. */
  datatype Move<T> = Call(call: Call<T>) | BeginRead | Check(atomic: bool) | StartWait

  predicate CanMove<T>(c: Chan<T>, op: Move<T>) {
    match op
    case Call(_) => true
    case BeginRead => c.reader == Away
    case Check(_) => c.reader == Polling
    case StartWait => c.reader == Window
  }

  function Moved<T>(c: Chan<T>, op: Move<T>): Chan<T> {
    match op
    case Call(call) => Apply(c, call)
    case BeginRead => Begin(c)
    case Check(atomic) => Poll(c, atomic)
    case StartWait => Park(c)
  }

  predicate Possible<T>(ops: seq<Move<T>>)
    decreases |ops|
  {
    ops == [] || (Possible(ops[..|ops| - 1]) && CanMove(Reached(ops[..|ops| - 1]), ops[|ops| - 1]))
  }

  /** The channel after `ops`, from a new one. */
  function Reached<T>(ops: seq<Move<T>>): Chan<T>
    decreases |ops|
  {
    if ops == [] then Fresh() else Moved(Reached(ops[..|ops| - 1]), ops[|ops| - 1])
  }

  /** The values the reader got, in order. */
  function Reads<T>(ops: seq<Move<T>>): seq<T> {
    if ops == [] then []
    else
      var before, last := ops[..|ops| - 1], ops[|ops| - 1];
      Reads(before) + (if last.Check? && Look(Reached(before)).Value? then [Look(Reached(before)).value] else [])
  }

  /** The writes of a run that come before its first close, in order. */
  ghost function Writes<T>(ops: seq<Move<T>>): seq<T> {
    if ops == [] then []
    else
      var before, last := ops[..|ops| - 1], ops[|ops| - 1];
      Writes(before) + (if last.Call? && last.call.WriteCall? && Call(CloseCall) !in before then [last.call.x] else [])
  }

  /** The channel is an unbounded closable queue: what was read and what is queued is what was accepted. */
  lemma {:induction false} RefinesClosableQueue<T>(ops: seq<Move<T>>)
    requires Possible(ops)
    ensures Reads(ops) + Reached(ops).queue == Writes(ops)
    ensures Reached(ops).closed <==> Call(CloseCall) in ops
    decreases |ops|
  {
    if ops != [] {
      var before, last := ops[..|ops| - 1], ops[|ops| - 1];
      RefinesClosableQueue(before);
      assert Call(CloseCall) in ops <==> Call(CloseCall) in before || last == Call(CloseCall);
    }
  }

  /** A read fails only when the channel has been closed and everything accepted has been read. */
  lemma FailsOnlyClosedAndEmpty<T>(ops: seq<Move<T>>)
    requires Possible(ops) && Look(Reached(ops)).Aborted?
    ensures Call(CloseCall) in ops && Reads(ops) == Writes(ops)
  {
    RefinesClosableQueue(ops);
  }

  // ---------------------------------------------------------------------------
  // Lost wake-ups
  // ---------------------------------------------------------------------------

  /** A parked reader with something to do: nobody has resumed it. */
  predicate Lost<T>(c: Chan<T>) {
    c.reader == Parked && (c.queue != [] || c.closed)
  }

  /** Every wait starts right after the check that found nothing to do. */
  predicate Undisturbed<T>(ops: seq<Move<T>>) {
    forall i :: 0 <= i < |ops| && ops[i].StartWait? ==> 0 < i && ops[i - 1].Check?
  }

  /** In the window the channel is untouched exactly when the check was the last thing to happen. */
  lemma {:induction false} WindowIsFreshOrDisturbed<T>(ops: seq<Move<T>>)
    requires Possible(ops) && Reached(ops).reader == Window
    ensures ops != [] && (ops[|ops| - 1].Check? <==> Reached(ops).queue == [] && !Reached(ops).closed)
    decreases |ops|
  {
    var before, last := ops[..|ops| - 1], ops[|ops| - 1];
    if last.Call? {
      WindowIsFreshOrDisturbed(before);
    }
  }

  lemma {:induction false} UndisturbedLosesNothing<T>(ops: seq<Move<T>>)
    requires Possible(ops) && Undisturbed(ops)
    ensures !Lost(Reached(ops))
    decreases |ops|
  {
    if ops != [] {
      var before, last := ops[..|ops| - 1], ops[|ops| - 1];
      assert Undisturbed(before) by {
        forall i | 0 <= i < |before| && before[i].StartWait? ensures 0 < i && before[i - 1].Check? {
          assert before[i] == ops[i];
        }
      }
      UndisturbedLosesNothing(before);
      if last.StartWait? {
        WindowIsFreshOrDisturbed(before);
        assert ops[|ops| - 1].StartWait? && ops[|ops| - 2] == before[|before| - 1];
      }
    }
  }

  /**
   No wake-up is lost in a run, at any of its moments, if and only if every wait starts right after
   its check. One thread always does that; with several, a write can land in between.
   */
  lemma NoLostWakeUpIffUndisturbed<T>(ops: seq<Move<T>>)
    requires Possible(ops)
    ensures (forall n {:trigger ops[..n]} :: 0 <= n <= |ops| ==> !Lost(Reached(ops[..n]))) <==> Undisturbed(ops)
  {
    if Undisturbed(ops) {
      forall n | 0 <= n <= |ops| ensures !Lost(Reached(ops[..n])) {
        PrefixPossible(ops, n);
        UndisturbedLosesNothing(ops[..n]);
      }
    } else {
      var i :| 0 <= i < |ops| && ops[i].StartWait? && !(0 < i && ops[i - 1].Check?);
      DisturbedWaitLoses(ops, i);
    }
  }

  /** A wait that does not start right after its check starts on a channel with something to do. */
  lemma DisturbedWaitLoses<T>(ops: seq<Move<T>>, i: nat)
    requires Possible(ops) && i < |ops| && ops[i].StartWait? && !(0 < i && ops[i - 1].Check?)
    ensures Lost(Reached(ops[..i + 1]))
  {
    PrefixPossible(ops, i + 1);
    assert ops[..i + 1][..i] == ops[..i];
    WindowIsFreshOrDisturbed(ops[..i]);
  }

  lemma {:induction false} PrefixPossible<T>(ops: seq<Move<T>>, n: nat)
    requires Possible(ops) && n <= |ops|
    ensures Possible(ops[..n])
    decreases |ops|
  {
    if n < |ops| {
      PrefixPossible(ops[..|ops| - 1], n);
      assert ops[..|ops| - 1][..n] == ops[..n];
    } else {
      assert ops[..n] == ops;
    }
  }

  /** A run that loses a wake-up: the write lands between the check and the wait. */
  lemma LostWakeUpExample()
    ensures var ops := [BeginRead, Check(false), Call(WriteCall('a')), StartWait];
      Possible(ops) && Lost(Reached(ops))
  {
    var ops := [BeginRead, Check(false), Call(WriteCall('a')), StartWait];
    assert ops[..3][..2][..1] == [BeginRead] && ops[..3][..2] == [BeginRead, Check(false)];
    assert ops[..3] == [BeginRead, Check(false), Call(WriteCall('a'))];
    assert Reached(ops[..3][..2][..1]) == Begin(Fresh());
    assert Reached(ops[..3][..2]) == Chan([], false, Window);
    assert Reached(ops[..3]) == Chan(['a'], false, Window);
    assert Possible(ops[..3][..2][..1]);
    assert Possible(ops[..3][..2]);
    assert Possible(ops[..3]);
  }
}
