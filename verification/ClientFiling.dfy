/** What the client keeps of a room is exactly what it was told while the room was the first of its name. */
module ClientFiling {
  import opened Common
  import opened Network
  import opened ClientModel
  import opened ClientState
  import opened ClientViews
  import opened Compose

  // ---------------------------------------------------------------------------
  // Exactly what is kept
  // ---------------------------------------------------------------------------

  /** The texts told for each listed room: a relayed message is told for the first room of its group's name. */
  function FileOne(c: Client, op: Op, files: seq<seq<string>>): seq<seq<string>>
    requires |files| == |c.rooms|
  {
    match op
    case OnEvent(Message(group, text)) =>
      (match IndexOfName(c.rooms, group)
       case None => files
       case Some(i) => files[i := files[i] + [text]])
    case _ => Follow(c, op, files, [])
  }

  lemma FileLength(c: Client, op: Op, files: seq<seq<string>>)
    requires |files| == |c.rooms|
    ensures |FileOne(c, op, files)| == |Do(c, op).rooms|
  {
    if !(op.OnEvent? && op.e.Message?) {
      FollowLength(c, op, files, []);
    }
  }

  /** For each room, what was relayed under its name while it was the first listed room of that name. */
  function Files(ops: seq<Op>): (files: seq<seq<string>>)
    ensures |files| == |DoAll(ops).rooms|
  {
    if ops == [] then []
    else
      var before, op := ops[..|ops| - 1], ops[|ops| - 1];
      FileLength(DoAll(before), op, Files(before));
      FileOne(DoAll(before), op, Files(before))
  }

  predicate Filed(c: Client, files: seq<seq<string>>)
    requires |files| == |c.rooms|
  {
    forall k :: 0 <= k < |c.rooms| ==> ServerTexts(c.messages, c.rooms[k].id) == files[k]
  }

  lemma EnterFiles(c: Client, files: seq<seq<string>>, id: U64, name: string, text: string)
    requires |files| == |c.rooms| && Filed(c, files) && Integral(c) && !Listed(c, id)
    ensures Filed(Enter(c, id, name, text), files + [[]])
  {
    var c' := Enter(c, id, name, text);
    NoTexts(c.messages, id);
    forall k | 0 <= k <= |c.rooms| ensures ServerTexts(c'.messages, c'.rooms[k].id) == (files + [[]])[k] {
      TextsAppend(c.messages, ChatMessage(id, text, System), c'.rooms[k].id);
    }
  }

  lemma DropFiles(c: Client, files: seq<seq<string>>, id: U64, active: Option<U64>)
    requires |files| == |c.rooms| && Filed(c, files)
    ensures |MarksWithout(c.rooms, files, id)| == |Drop(c, id).rooms|
    ensures Filed(Drop(c, id).(active := active), MarksWithout(c.rooms, files, id))
  {
    var c', files' := Drop(c, id).(active := active), MarksWithout(c.rooms, files, id);
    MarksWithoutFollow(c.rooms, files, id);
    forall k | 0 <= k < |c'.rooms| ensures ServerTexts(c'.messages, c'.rooms[k].id) == files'[k] {
      assert HasOrigin(c.rooms, files, id, k);
      var j: nat :| CameFrom(c.rooms, files, id, k, j);
      TextsWithout(c.messages, id, c.rooms[j].id);
    }
  }

  lemma DeliverFiles(c: Client, files: seq<seq<string>>, group: string, text: string)
    requires |files| == |c.rooms| && Filed(c, files) && IdsUnique(c.rooms)
    ensures Filed(ClientModel.Deliver(c, group, text), FileOne(c, OnEvent(Message(group, text)), files))
  {
    match IndexOfName(c.rooms, group)
    case None =>
    case Some(i) =>
      var c' := ClientModel.Deliver(c, group, text);
      forall k | 0 <= k < |c.rooms|
        ensures ServerTexts(c'.messages, c'.rooms[k].id) == if k == i then files[k] + [text] else files[k]
      {
        TextsAppend(c.messages, ChatMessage(c.rooms[i].id, text, Server), c.rooms[k].id);
        assert c'.rooms[k].id == c.rooms[k].id;
      }
  }

  lemma ConfirmFiles(c: Client, files: seq<seq<string>>, id: U64, name: string)
    requires |files| == |c.rooms| && Filed(c, files)
    requires IdsUnique(c.rooms) && Integral(c) && FreshId(c, id, name)
    ensures Filed(ConfirmCreate(c, id, name), files)
  {
    var c' := ConfirmCreate(c, id, name);
    if c' != c {
      assert !Listed(c, id);
      forall k | 0 <= k < |c.rooms| ensures ServerTexts(c'.messages, c'.rooms[k].id) == files[k] {
        TextsRekey(c.messages, c.rooms[IndexOfName(c.rooms, name).value].id, id, c'.rooms[k].id);
      }
    }
  }

  lemma SendFiles(c: Client, files: seq<seq<string>>, id: U64, text: string)
    requires |files| == |c.rooms| && Filed(c, files)
    ensures Filed(Send(c, id, text), files)
  {
    forall k | 0 <= k < |c.rooms| ensures ServerTexts(Send(c, id, text).messages, c.rooms[k].id) == files[k] {
      TextsAppend(c.messages, ChatMessage(id, text, Me), c.rooms[k].id);
    }
  }

  lemma UserFiles(c: Client, op: Op, files: seq<seq<string>>)
    requires |files| == |c.rooms| && Filed(c, files) && Integral(c) && NoClash(c, op) && !op.OnEvent?
    ensures |FileOne(c, op, files)| == |Do(c, op).rooms| && Filed(Do(c, op), FileOne(c, op, files))
  {
    match op
    case DoCreate(name) =>
      if Do(c, op) != c {
        NextIdIsNew(c);
        EnterFiles(c, files, NextId(c.rooms), name, CreatedText(name));
      }
    case DoSubscribe(input) =>
      if Do(c, op) != c {
        EnterFiles(c, files, input.value, Placeholder(input.value), SubscribedText(input.value));
      }
    case DoSend(id, text) => SendFiles(c, files, id, text);
    case DoLeave(id) => DropFiles(c, files, id, Leave(c, id).active);
    case DoLeaveOpen(id) => DropFiles(c, files, id, None);
    case _ =>
  }

  lemma EventFiles(c: Client, e: FromServer, files: seq<seq<string>>)
    requires |files| == |c.rooms| && Filed(c, files) && IdsUnique(c.rooms) && Integral(c) && NoClash(c, OnEvent(e))
    ensures |FileOne(c, OnEvent(e), files)| == |HandleEvent(c, e).rooms|
    ensures Filed(HandleEvent(c, e), FileOne(c, OnEvent(e), files))
  {
    match e
    case Message(group, text) => DeliverFiles(c, files, group, text);
    case RoomConfirmed(id, name, isCreate) => if isCreate { ConfirmFiles(c, files, id, name); }
    case _ =>
  }

  /**
   In every tidy run the server messages kept for a room are exactly those relayed under its name while it was the
   first listed room of that name: in order, none missing and none besides.
   */
  lemma {:induction false} KeptIsFiled(ops: seq<Op>)
    requires Tidy(ops)
    ensures Filed(DoAll(ops), Files(ops))
    decreases |ops|
  {
    if ops != [] {
      var before, op := ops[..|ops| - 1], ops[|ops| - 1];
      KeptIsFiled(before);
      TidyRuns(before);
      if op.OnEvent? {
        EventFiles(DoAll(before), op.e, Files(before));
      } else {
        UserFiles(DoAll(before), op, Files(before));
      }
    }
  }

  // ---------------------------------------------------------------------------
  // Nothing is lost after the confirmation
  // ---------------------------------------------------------------------------

  function EventsIn(ops: seq<Op>): seq<FromServer> {
    if ops == [] then []
    else
      var last := ops[|ops| - 1];
      EventsIn(ops[..|ops| - 1]) + (if last.OnEvent? then [last.e] else [])
  }

  /** All through `more`, room `k` is the first of the name, and no room is left. */
  predicate Steady(ops: seq<Op>, more: seq<Op>, k: nat, name: string) {
    (forall n {:trigger more[..n]} :: 0 <= n <= |more| ==>
       IndexOfName(DoAll(ops + more[..n]).rooms, name) == Some(k)) &&
    forall i :: 0 <= i < |more| ==> !more[i].DoConnect? && Dropped(more[i]) == None
  }

  lemma SteadyFiles(c: Client, op: Op, files: seq<seq<string>>, k: nat, name: string)
    requires |files| == |c.rooms| && IndexOfName(c.rooms, name) == Some(k) && !op.DoConnect? && Dropped(op) == None
    ensures k < |FileOne(c, op, files)|
    ensures FileOne(c, op, files)[k] ==
            files[k] + Relayed(op, name)
  {
  }

  lemma OneMoreFiled(at: seq<Op>, op: Op, k: nat, name: string)
    requires IndexOfName(DoAll(at).rooms, name) == Some(k) && !op.DoConnect? && Dropped(op) == None
    ensures k < |Files(at)| && k < |Files(at + [op])|
    ensures Files(at + [op])[k] ==
            Files(at)[k] + Relayed(op, name)
  {
    assert (at + [op])[..|at|] == at;
    SteadyFiles(DoAll(at), op, Files(at), k, name);
  }

  /** The texts relayed under a name by one operation. */
  function Relayed(op: Op, name: string): seq<string> {
    if op.OnEvent? && op.e.Message? && op.e.groupName == name then [op.e.text] else []
  }

  lemma EventsGrow(ops: seq<Op>, op: Op, name: string)
    ensures NamedTexts(EventsIn(ops + [op]), name) == NamedTexts(EventsIn(ops), name) + Relayed(op, name)
  {
    assert (ops + [op])[..|ops|] == ops;
    if op.OnEvent? {
      NamedAppend(EventsIn(ops), op.e, name);
    } else {
      assert EventsIn(ops) + [] == EventsIn(ops);
    }
  }

  lemma FileAfter(at: seq<Op>, op: Op, at': seq<Op>, told: seq<Op>, told': seq<Op>, k: nat, name: string)
    requires IndexOfName(DoAll(at).rooms, name) == Some(k) && !op.DoConnect? && Dropped(op) == None
    requires at' == at + [op] && told' == told + [op]
    ensures k < |Files(at)| && k < |Files(at')|
    ensures Files(at')[k] == Files(at)[k] + Relayed(op, name)
    ensures NamedTexts(EventsIn(told'), name) == NamedTexts(EventsIn(told), name) + Relayed(op, name)
  {
    OneMoreFiled(at, op, k, name);
    EventsGrow(told, op, name);
  }

  /** What is filed for room `k` after `n` of the operations of `more`. */
  function FileAt(ops: seq<Op>, more: seq<Op>, k: nat, n: nat): seq<string>
    requires n <= |more|
  {
    var files := Files(ops + more[..n]);
    if k < |files| then files[k] else []
  }

  function ToldBy(more: seq<Op>, name: string, n: nat): seq<string>
    requires n <= |more|
  {
    NamedTexts(EventsIn(more[..n]), name)
  }

  lemma StepFiles(ops: seq<Op>, more: seq<Op>, k: nat, name: string, n: nat)
    requires Steady(ops, more, k, name) && n < |more|
    ensures FileAt(ops, more, k, n + 1) == FileAt(ops, more, k, n) + Relayed(more[n], name)
    ensures ToldBy(more, name, n + 1) == ToldBy(more, name, n) + Relayed(more[n], name)
  {
    assert ops + more[..n + 1] == (ops + more[..n]) + [more[n]] && more[..n + 1] == more[..n] + [more[n]];
    assert IndexOfName(DoAll(ops + more[..n]).rooms, name) == Some(k);
    FileAfter(ops + more[..n], more[n], ops + more[..n + 1], more[..n], more[..n + 1], k, name);
  }

  /** Two lists that grow by the same pieces. */
  lemma {:induction false} GrowTogether(fs: seq<seq<string>>, gs: seq<seq<string>>, rs: seq<seq<string>>)
    requires |fs| == |gs| == |rs| + 1 && gs[0] == []
    requires forall i :: 0 <= i < |rs| ==> fs[i + 1] == fs[i] + rs[i] && gs[i + 1] == gs[i] + rs[i]
    ensures fs[|rs|] == fs[0] + gs[|rs|]
    decreases |rs|
  {
    if rs != [] {
      var n := |rs| - 1;
      GrowTogether(fs[..|rs|], gs[..|rs|], rs[..n]);
      assert fs[0] + gs[n] + rs[n] == fs[0] + (gs[n] + rs[n]);
    }
  }

  lemma FilesGrow(ops: seq<Op>, more: seq<Op>, k: nat, name: string)
    requires Steady(ops, more, k, name)
    ensures FileAt(ops, more, k, |more|) == FileAt(ops, more, k, 0) + ToldBy(more, name, |more|)
  {
    var fs := seq(|more| + 1, n requires 0 <= n <= |more| => FileAt(ops, more, k, n));
    var gs := seq(|more| + 1, n requires 0 <= n <= |more| => ToldBy(more, name, n));
    var rs := seq(|more|, n requires 0 <= n < |more| => Relayed(more[n], name));
    forall n | 0 <= n < |rs| ensures fs[n + 1] == fs[n] + rs[n] && gs[n + 1] == gs[n] + rs[n] {
      StepFiles(ops, more, k, name, n);
    }
    assert ToldBy(more, name, 0) == [] by { assert more[..0] == []; }
    GrowTogether(fs, gs, rs);
  }

  /**
   From any moment on, for example a room's confirmation: as long as the room stays the first of its name, the
   client keeps for it every message relayed under that name, in order, after what it had.
   */
  lemma NothingIsLost(ops: seq<Op>, more: seq<Op>, k: nat, name: string)
    requires Tidy(ops) && Tidy(ops + more) && Steady(ops, more, k, name)
    ensures k < |DoAll(ops).rooms| && k < |DoAll(ops + more).rooms|
    ensures ServerTexts(DoAll(ops + more).messages, DoAll(ops + more).rooms[k].id) ==
            ServerTexts(DoAll(ops).messages, DoAll(ops).rooms[k].id) + NamedTexts(EventsIn(more), name)
  {
    KeptIsFiled(ops);
    KeptIsFiled(ops + more);
    FilesGrow(ops, more, k, name);
    assert more[..|more|] == more && ops + more[..0] == ops;
    assert IndexOfName(DoAll(ops + more[..0]).rooms, name) == Some(k);
    assert IndexOfName(DoAll(ops + more[..|more|]).rooms, name) == Some(k);
  }
}
