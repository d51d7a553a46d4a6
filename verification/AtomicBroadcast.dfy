/**
 The specification the fan-out is meant to implement: a message goes into the room's log and into the
 queue of every open subscriber but the sender's in one indivisible action.
 */
module AtomicBroadcast {
  import opened Pipeline

  datatype Subscriber = Subscriber(owner: nat, room: nat, joined: nat,
                                   queue: seq<Copy>, open: bool, taken: seq<Copy>)

  /** `busy` are the rooms in which a broadcast has begun and not been declared over. */
  datatype Hub = Hub(logs: seq<seq<Entry>>, busy: set<nat>, subscribers: seq<Subscriber>)

  datatype Action =
    | Stutter
    | Open
    | Subscribe(owner: nat, room: nat)
    | Broadcast(room: nat, sender: nat, text: string)
    | EndBroadcast(room: nat)
    | Take(c: nat)
    | Close(c: nat, withdrawn: bool)

  /** Delivery to one subscriber. */
  function Offer(b: Subscriber, room: nat, sender: nat, copy: Copy): Subscriber {
    if b.room == room && b.open && b.owner != sender then b.(queue := b.queue + [copy]) else b
  }

  /** The last message in the subscriber's queue is the one its room received last. */
  predicate HoldsNewest(h: Hub, b: Subscriber) {
    && b.queue != [] && b.room < |h.logs| && h.logs[b.room] != []
    && var newest := h.logs[b.room][|h.logs[b.room]| - 1];
    newest.sender != b.owner && b.queue[|b.queue| - 1] == Copy(|h.logs[b.room]| - 1, newest.text)
  }

  predicate Legal(h: Hub, a: Action) {
    match a
    case Stutter => true
    case Open => true
    case Subscribe(_, room) => room < |h.logs|
    case Broadcast(room, _, _) => room < |h.logs| && room !in h.busy
    case EndBroadcast(room) => room in h.busy
    case Take(c) => c < |h.subscribers| && h.subscribers[c].queue != []
    case Close(c, withdrawn) =>
      c < |h.subscribers| && (withdrawn ==> h.subscribers[c].room in h.busy && HoldsNewest(h, h.subscribers[c]))
  }

  /**
   While a broadcast is not over, closing a subscriber may withdraw its message from the subscriber's queue: the
   close can overtake a fan-out that has not reached this subscriber yet.
   */
  function Act(h: Hub, a: Action): Hub
    requires Legal(h, a)
  {
    match a
    case Stutter => h
    case Open => h.(logs := h.logs + [[]])
    case Subscribe(owner, room) =>
      h.(subscribers := h.subscribers + [Subscriber(owner, room, |h.logs[room]|, [], true, [])])
    case Broadcast(room, sender, text) =>
      Hub(h.logs[room := h.logs[room] + [Entry(sender, text)]], h.busy + {room},
          seq(|h.subscribers|, c requires 0 <= c < |h.subscribers| =>
            Offer(h.subscribers[c], room, sender, Copy(|h.logs[room]|, text))))
    case EndBroadcast(room) => h.(busy := h.busy - {room})
    case Take(c) =>
      var b := h.subscribers[c];
      h.(subscribers := h.subscribers[c := b.(queue := b.queue[1..], taken := b.taken + [b.queue[0]])])
    case Close(c, withdrawn) =>
      var b := h.subscribers[c];
      var queue := if withdrawn then b.queue[..|b.queue| - 1] else b.queue;
      h.(subscribers := h.subscribers[c := b.(open := false, queue := queue)])
  }

  /** A run of the specification: every action is legal where it is taken. */
  predicate LegalRun(h: Hub, actions: seq<Action>)
    decreases |actions|, 0
  {
    actions == [] ||
    (LegalRun(h, actions[..|actions| - 1]) && Legal(ActAll(h, actions[..|actions| - 1]), actions[|actions| - 1]))
  }

  function ActAll(h: Hub, actions: seq<Action>): Hub
    requires LegalRun(h, actions)
    decreases |actions|, 1
  {
    if actions == [] then h else Act(ActAll(h, actions[..|actions| - 1]), actions[|actions| - 1])
  }

  // ---------------------------------------------------------------------------
  // What a subscriber is owed
  // ---------------------------------------------------------------------------

  /** The room's messages from log position `from` on, without the reader's own. */
  function Owed(log: seq<Entry>, from: nat, reader: nat): seq<Copy> {
    if |log| <= from then []
    else
      var last := log[|log| - 1];
      Owed(log[..|log| - 1], from, reader) + (if last.sender != reader then [Copy(|log| - 1, last.text)] else [])
  }

  lemma OwedGrows(log: seq<Entry>, e: Entry, from: nat, reader: nat)
    requires from <= |log|
    ensures Owed(log + [e], from, reader) ==
            Owed(log, from, reader) + (if e.sender != reader then [Copy(|log|, e.text)] else [])
  {
    assert (log + [e])[..|log|] == log;
  }

  /** An open subscriber has taken or still holds exactly what it is owed, a closed one a prefix. */
  predicate Settled(h: Hub, c: nat)
    requires c < |h.subscribers|
  {
    var b := h.subscribers[c];
    && b.room < |h.logs| && b.joined <= |h.logs[b.room]|
    && var owed := Owed(h.logs[b.room], b.joined, b.owner);
    && b.taken + b.queue <= owed
    && (b.open ==> b.taken + b.queue == owed)
  }

  predicate AllSettled(h: Hub) {
    forall c :: 0 <= c < |h.subscribers| ==> Settled(h, c)
  }

  /** A broadcast adds the same message to what a subscriber is owed and to what it holds. */
  lemma BroadcastKeepsSettled(h: Hub, room: nat, sender: nat, text: string, c: nat)
    requires Legal(h, Broadcast(room, sender, text)) && c < |h.subscribers| && Settled(h, c)
    ensures Settled(Act(h, Broadcast(room, sender, text)), c)
  {
    var b, copy := h.subscribers[c], Copy(|h.logs[room]|, text);
    if room == b.room {
      OwedGrows(h.logs[room], Entry(sender, text), b.joined, b.owner);
      assert b.taken + (b.queue + [copy]) == (b.taken + b.queue) + [copy];
    }
  }

  /** Every atomic action keeps the books. */
  lemma ActKeepsSettled(h: Hub, a: Action)
    requires AllSettled(h) && Legal(h, a)
    ensures AllSettled(Act(h, a))
  {
    var h' := Act(h, a);
    forall c | 0 <= c < |h'.subscribers| ensures Settled(h', c) {
      if c < |h.subscribers| {
        assert Settled(h, c);
        var b := h.subscribers[c];
        match a
        case Broadcast(room, sender, text) => BroadcastKeepsSettled(h, room, sender, text, c);
        case Take(k) =>
          assert b.queue != [] ==> b.taken + [b.queue[0]] + b.queue[1..] == b.taken + b.queue;
        case Close(k, w) =>
          assert b.queue != [] ==> b.taken + b.queue[..|b.queue| - 1] == (b.taken + b.queue)[..|b.taken + b.queue| - 1];
        case _ =>
      }
    }
  }
}
