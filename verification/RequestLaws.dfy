/** What a line must be to have each effect, and to get each reply: laws of dispatch that do not mention its code. */
module RequestLaws {
  import opened Common
  import opened Requests

  // ---------------------------------------------------------------------------
  // Reading a line
  // ---------------------------------------------------------------------------

  /** `text`, read as a C string, is `word`. */
  predicate ReadsAs(text: string, word: string) {
    word <= text && '\0' !in word && (|text| == |word| || text[|word|] == '\0')
  }

  /** A JSON object of the given type. */
  predicate IsA(line: Line, kind: string) {
    line.Fields? && "type" in line.fields && line.fields["type"].Text? && ReadsAs(line.fields["type"].text, kind)
  }

  /** The value, as a 64-bit unsigned or signed integer, denotes the id `n`. */
  predicate Denotes(v: Json, n: U64) {
    v == Unsigned(n) || (v.Signed? && (v.i == n || v.i == n - TWO64))
  }

  predicate IsInteger(v: Json) {
    v.Unsigned? || v.Signed?
  }

  /** The object's `grp` names room `r`: the first in the directory with that id. */
  predicate Names(keys: seq<Key>, fields: map<string, Json>, r: nat) {
    "grp" in fields && r < |keys| && Denotes(fields["grp"], keys[r].id) &&
    forall k :: 0 <= k < r ==> keys[k].id != keys[r].id
  }

  /** A C string is one word: `CStr` is the word a text reads, and the only one. */
  lemma {:induction false} CStrIff(text: string, word: string)
    ensures CStr(text) == word <==> ReadsAs(text, word)
    decreases |text|
  {
    if text != "" && text[0] != '\0' && word != "" {
      CStrIff(text[1..], word[1..]);
      assert ReadsAs(text, word) <==> word[0] == text[0] && ReadsAs(text[1..], word[1..]) by {
        assert word == [word[0]] + word[1..] && text == [text[0]] + text[1..];
        assert word[0] == text[0] ==> (word <= text <==> word[1..] <= text[1..]);
      }
      assert CStr(text)[0] == text[0] && CStr(text)[1..] == CStr(text[1..]);
    }
  }

  lemma ParseIdIff(v: Json, n: U64)
    ensures ParseId(v) == Some(n) <==> Denotes(v, n)
  {
  }

  /** The four types a line can have are told apart by their words. */
  lemma Kinds(line: Line)
    ensures line.Fields? && "type" in line.fields && line.fields["type"].Text? ==>
      var kind := CStr(line.fields["type"].text);
      (IsA(line, "sub") <==> kind == "sub") && (IsA(line, "csub") <==> kind == "csub") &&
      (IsA(line, "desub") <==> kind == "desub") && (IsA(line, "msg") <==> kind == "msg")
  {
    if line.Fields? && "type" in line.fields && line.fields["type"].Text? {
      var text := line.fields["type"].text;
      CStrIff(text, "sub");
      CStrIff(text, "csub");
      CStrIff(text, "desub");
      CStrIff(text, "msg");
    }
  }

  /** What the directory says of the object's `grp`. */
  lemma LookAt(keys: seq<Key>, line: Line)
    ensures line.Fields? && "grp" in line.fields ==>
      (ParseId(line.fields["grp"]).Some? <==> IsInteger(line.fields["grp"])) &&
      (ParseId(line.fields["grp"]).Some? ==>
        var found := FindRoom(keys, ParseId(line.fields["grp"]).value);
        (found.Some? ==> Names(keys, line.fields, found.value)) &&
        (found.None? ==> forall r :: 0 <= r < |keys| ==> !Denotes(line.fields["grp"], keys[r].id)) &&
        (forall r :: 0 <= r && Names(keys, line.fields, r) ==> found == Some(r)) &&
        (forall r :: 0 <= r < |keys| ==>
          (Denotes(line.fields["grp"], keys[r].id) <==> keys[r].id == ParseId(line.fields["grp"]).value)))
  {
    if line.Fields? && "grp" in line.fields {
      forall n: U64 ensures ParseId(line.fields["grp"]) == Some(n) <==> Denotes(line.fields["grp"], n) {
        ParseIdIff(line.fields["grp"], n);
      }
    }
  }

  // ---------------------------------------------------------------------------
  // The effects
  // ---------------------------------------------------------------------------

  /** A message is accepted for a room exactly when a `msg` names an existing room and carries a string. */
  lemma PostsIff(keys: seq<Key>, subs: set<nat>, line: Line, r: nat, text: string)
    ensures Decide(keys, subs, line) == Post(r, text) <==>
      IsA(line, "msg") && Names(keys, line.fields, r) && "msg" in line.fields && line.fields["msg"] == Text(text)
  {
    Kinds(line);
    LookAt(keys, line);
  }

  /** A subscription starts exactly when a `sub` names an existing room with the id of no room joined. */
  lemma JoinsIff(keys: seq<Key>, subs: set<nat>, line: Line, r: nat)
    ensures Decide(keys, subs, line) == Join(r) <==>
      IsA(line, "sub") && Names(keys, line.fields, r) &&
      forall k :: k in subs && k < |keys| ==> keys[k].id != keys[r].id
  {
    Kinds(line);
    LookAt(keys, line);
  }

  /** A line ends the session exactly when it is a `desub`, or a `msg` to an existing room without a string. */
  lemma LeavesIff(keys: seq<Key>, subs: set<nat>, line: Line)
    ensures Decide(keys, subs, line).Leave? <==>
      IsA(line, "desub") ||
      (IsA(line, "msg") && "msg" in line.fields && !line.fields["msg"].Text? &&
       exists r :: 0 <= r < |keys| && Names(keys, line.fields, r))
  {
    Kinds(line);
    LookAt(keys, line);
  }

  /** The line asks for a room of that name. */
  predicate AsksFor(line: Line, name: string) {
    IsA(line, "csub") && "grp_name" in line.fields && line.fields["grp_name"] == Text(name)
  }

  /** A room is created exactly when a `csub` carries a name, whatever the directory holds. */
  lemma CreatesIff(keys: seq<Key>, subs: set<nat>, line: Line, name: string)
    ensures Decide(keys, subs, line) == Create(name) <==> AsksFor(line, name)
  {
    Kinds(line);
  }

  // ---------------------------------------------------------------------------
  // The replies
  // ---------------------------------------------------------------------------

  function Reply(keys: seq<Key>, subs: set<nat>, line: Line): seq<Wire> {
    ReplyFor(Decide(keys, subs, line), keys, subs)
  }

  /** A line that gets no reply. */
  predicate IsSilent(keys: seq<Key>, subs: set<nat>, line: Line) {
    || line.Blank?
    || IsA(line, "desub")
    || (IsA(line, "msg") && "msg" in line.fields &&
        exists r :: 0 <= r < |keys| && Names(keys, line.fields, r) && (line.fields["msg"].Text? ==> r in subs))
  }

  /** Every other line gets exactly one reply. */
  lemma SilentIff(keys: seq<Key>, subs: set<nat>, line: Line)
    ensures Reply(keys, subs, line) == [] <==> IsSilent(keys, subs, line)
    ensures !IsSilent(keys, subs, line) ==> |Reply(keys, subs, line)| == 1
  {
    Kinds(line);
    LookAt(keys, line);
    DecisionInRange(keys, subs, line);
  }

  predicate Knows(line: Line) {
    IsA(line, "sub") || IsA(line, "desub") || IsA(line, "csub") || IsA(line, "msg")
  }

  /** When each refusal is due: what is wrong with the line, and with nothing looked at before. */
  predicate IsDue(why: Refusal, keys: seq<Key>, subs: set<nat>, line: Line) {
    match why
    case ParseFailed(reason) => line == Malformed(reason)
    case InvalidJson => line.NotObject? || (line.Fields? && !Knows(line))
    case SubNoGrp => IsA(line, "sub") && "grp" !in line.fields
    case SubBadGrp => IsA(line, "sub") && "grp" in line.fields && !IsInteger(line.fields["grp"])
    case SubTwice =>
      IsA(line, "sub") && "grp" in line.fields &&
      exists r :: r in subs && r < |keys| && Denotes(line.fields["grp"], keys[r].id)
    case SubNoRoom =>
      IsA(line, "sub") && "grp" in line.fields && IsInteger(line.fields["grp"]) &&
      forall r :: 0 <= r < |keys| ==> !Denotes(line.fields["grp"], keys[r].id)
    case CsubNoName => IsA(line, "csub") && "grp_name" !in line.fields
    case CsubBadName => IsA(line, "csub") && "grp_name" in line.fields && !line.fields["grp_name"].Text?
    case MsgNoGrp => IsA(line, "msg") && "grp" !in line.fields
    case MsgNoMsg => IsA(line, "msg") && "grp" in line.fields && "msg" !in line.fields
    case MsgBadGrp =>
      IsA(line, "msg") && "grp" in line.fields && "msg" in line.fields && !IsInteger(line.fields["grp"])
    case MsgNoRoom =>
      IsA(line, "msg") && "grp" in line.fields && "msg" in line.fields && IsInteger(line.fields["grp"]) &&
      forall r :: 0 <= r < |keys| ==> !Denotes(line.fields["grp"], keys[r].id)
    case NotSubscribed =>
      IsA(line, "msg") && "msg" in line.fields && line.fields["msg"].Text? &&
      exists r :: 0 <= r < |keys| && Names(keys, line.fields, r) && r !in subs
  }

  lemma SubRefusedIff(keys: seq<Key>, subs: set<nat>, line: Line, why: Refusal)
    requires why.SubNoGrp? || why.SubBadGrp? || why.SubTwice? || why.SubNoRoom?
    ensures Reply(keys, subs, line) == [Plain(why)] <==> IsDue(why, keys, subs, line)
  {
    Kinds(line);
    LookAt(keys, line);
    DecisionInRange(keys, subs, line);
  }

  lemma MsgRefusedIff(keys: seq<Key>, subs: set<nat>, line: Line, why: Refusal)
    requires why.MsgNoGrp? || why.MsgNoMsg? || why.MsgBadGrp?
    ensures Reply(keys, subs, line) == [Plain(why)] <==> IsDue(why, keys, subs, line)
  {
    Kinds(line);
    LookAt(keys, line);
    DecisionInRange(keys, subs, line);
  }

  lemma RoomRefusedIff(keys: seq<Key>, subs: set<nat>, line: Line, why: Refusal)
    requires why.MsgNoRoom? || why.NotSubscribed?
    ensures Reply(keys, subs, line) == [Plain(why)] <==> IsDue(why, keys, subs, line)
  {
    Kinds(line);
    LookAt(keys, line);
    DecisionInRange(keys, subs, line);
  }

  lemma LineRefusedIff(keys: seq<Key>, subs: set<nat>, line: Line, why: Refusal)
    requires why.ParseFailed? || why.InvalidJson? || why.CsubNoName? || why.CsubBadName?
    ensures Reply(keys, subs, line) == [Plain(why)] <==> IsDue(why, keys, subs, line)
  {
    Kinds(line);
    LookAt(keys, line);
    DecisionInRange(keys, subs, line);
  }

  /** A line is refused with a text if and only if that refusal is due. */
  lemma RefusedIff(keys: seq<Key>, subs: set<nat>, line: Line, why: Refusal)
    ensures Reply(keys, subs, line) == [Plain(why)] <==> IsDue(why, keys, subs, line)
  {
    if why.SubNoGrp? || why.SubBadGrp? || why.SubTwice? || why.SubNoRoom? {
      SubRefusedIff(keys, subs, line, why);
    } else if why.MsgNoGrp? || why.MsgNoMsg? || why.MsgBadGrp? {
      MsgRefusedIff(keys, subs, line, why);
    } else if why.MsgNoRoom? || why.NotSubscribed? {
      RoomRefusedIff(keys, subs, line, why);
    } else {
      LineRefusedIff(keys, subs, line, why);
    }
  }

  /** A subscription is confirmed under the room's own id and name, and only when the line joins it. */
  lemma SubConfirmedIff(keys: seq<Key>, subs: set<nat>, line: Line, id: U64, name: string)
    ensures Reply(keys, subs, line) == [SubOk(id, name)] <==>
      IsA(line, "sub") &&
      exists r :: 0 <= r < |keys| && Names(keys, line.fields, r) && keys[r] == Key(id, name) &&
                  forall k :: k in subs && k < |keys| ==> keys[k].id != id
  {
    Kinds(line);
    LookAt(keys, line);
    DecisionInRange(keys, subs, line);
  }

  /** A creation is confirmed under the next id and the name asked for. */
  lemma CsubConfirmedIff(keys: seq<Key>, subs: set<nat>, line: Line, id: U64, name: string)
    ensures Reply(keys, subs, line) == [CsubOk(id, name)] <==>
      AsksFor(line, name) && id == (|keys| + 1) % TWO64
  {
    Kinds(line);
    LookAt(keys, line);
    DecisionInRange(keys, subs, line);
  }

  /** No line makes the server reply with a relayed message. */
  lemma NeverRelays(keys: seq<Key>, subs: set<nat>, line: Line, data: string, name: string)
    ensures Reply(keys, subs, line) != [Relay(data, name)]
  {
    DecisionInRange(keys, subs, line);
  }

  /** The texts by their lengths, and where these agree by one character. */
  predicate Looks(why: Refusal, text: string) {
    match why
    case ParseFailed(_) => |text| >= 22 && text[6] == ' ' && text[10] == 'p'
    case InvalidJson => |text| == 12
    case SubNoGrp => |text| == 21 && text[16] == 'f' && text[6] == ':'
    case SubBadGrp => |text| == 21 && text[16] == 'v' && text[6] == ':'
    case SubTwice => |text| == 44 && text[6] == ':'
    case SubNoRoom => |text| == 28 && text[6] == ':'
    case CsubNoName => |text| == 52 && text[10] == 'c'
    case CsubBadName => |text| == 60 && text[10] == 'c'
    case MsgNoGrp => |text| == 32 && text[10] == 's' && text[23] == 'g'
    case MsgNoMsg => |text| == 32 && text[10] == 's' && text[23] == 'm'
    case MsgBadGrp => |text| == 31 && text[10] == 's'
    case MsgNoRoom => |text| == 33 && text[10] == 's'
    case NotSubscribed => |text| == 27 && text[6] == 'b'
  }

  lemma LongTextsLook(why: Refusal)
    requires why.SubTwice? || why.CsubNoName? || why.CsubBadName?
    ensures Looks(why, TextOf(why))
  {
  }

  lemma ShortTextsLook(why: Refusal)
    requires !why.SubTwice? && !why.CsubNoName? && !why.CsubBadName?
    ensures Looks(why, TextOf(why))
  {
  }

  lemma TextsLook(why: Refusal)
    ensures Looks(why, TextOf(why))
  {
    if why.SubTwice? || why.CsubNoName? || why.CsubBadName? { LongTextsLook(why); } else { ShortTextsLook(why); }
  }

  /** Two refusals with the same text are the same refusal. */
  lemma TextsDiffer(a: Refusal, b: Refusal)
    requires TextOf(a) == TextOf(b)
    ensures a == b
  {
    TextsLook(a);
    TextsLook(b);
    if a.ParseFailed? && b.ParseFailed? {
      assert TextOf(a)[22..] == a.reason && TextOf(b)[22..] == b.reason;
    }
  }
}
