/** What a session does with one line it has read: the dispatch of `tcp_accept` and its parsers. */
module Requests {
  import opened Common

  /** The kinds of JSON value the server tells apart. */
  datatype Json = Text(text: string) | Unsigned(n: U64) | Signed(i: I64) | Other

  /** A line after trimming and parsing. */
  datatype Line = Blank | Malformed(reason: string) | NotObject | Fields(fields: map<string, Json>)

  /** Why the server refuses a line. */
  datatype Refusal =
    | ParseFailed(reason: string)
    | InvalidJson
    | SubNoGrp | SubBadGrp | SubTwice | SubNoRoom
    | CsubNoName | CsubBadName
    | MsgNoGrp | MsgNoMsg | MsgBadGrp | MsgNoRoom
    | NotSubscribed

  /** The plain-text reply. */
  function TextOf(why: Refusal): string {
    match why
    case ParseFailed(reason) => "Failed to parse JSON: " + reason
    case InvalidJson => "Invalid JSON"
    case SubNoGrp => "Failed: grp not found"
    case SubBadGrp => "Failed: grp not valid"
    case SubTwice => "Failed: Already subscribed to this Chat Room"
    case SubNoRoom => "Failed: No such group exists"
    case CsubNoName => "Failed to create and subscribe: 'grp_name' not found"
    case CsubBadName => "Failed to create and subscribe: 'grp_name' in invalid format"
    case MsgNoGrp => "Failed to send msg: no grp found"
    case MsgNoMsg => "Failed to send msg: no msg found"
    case MsgBadGrp => "Failed to send msg: invalid grp"
    case MsgNoRoom => "Failed to send msg: grp not found"
    case NotSubscribed => "not subscribed to this room"
  }

  /** The frames the server writes, without the newline that ends each. */
  datatype Wire =
    | SubOk(grp: U64, grpName: string)
    | CsubOk(grp: U64, grpName: string)
    | Relay(data: string, grpName: string)
    | Plain(why: Refusal)

  /** A room as the directory lists it. */
  datatype Key = Key(id: U64, name: string)

  /** The id given to the room created when `n` rooms exist. */
  function NewId(n: nat): U64 {
    (n + 1) % TWO64
  }

  /** `parse_id`: an int64 is cast to uint64, so a negative number wraps around. */
  function ParseId(v: Json): Option<U64> {
    match v
    case Unsigned(n) => Some(n)
    case Signed(i) => Some(i % TWO64)
    case _ => None
  }

  function KeyHasId(id: U64): Key -> bool {
    (key: Key) => key.id == id
  }

  /** The first room with the given id. */
  function FindRoom(keys: seq<Key>, id: U64): (r: Option<nat>)
    ensures r.Some? ==> r.value < |keys| && keys[r.value].id == id
    ensures r.Some? ==> forall k :: 0 <= k < r.value ==> keys[k].id != id
    ensures r.None? ==> forall k :: 0 <= k < |keys| ==> keys[k].id != id
  {
    FirstFrom(keys, KeyHasId(id), 0)
  }

  /** The `c_str` round trip: a string ends at its first NUL. */
  function CStr(s: string): string {
    if s == "" || s[0] == '\0' then "" else [s[0]] + CStr(s[1..])
  }

  datatype Decision =
    | Ignore
    | Answer(wire: Wire)
    | Join(room: nat)
    | Create(name: string)
    | Post(room: nat, text: string)
    | Leave

  function Refuse(why: Refusal): Decision {
    Answer(Plain(why))
  }

  /** `handle_sub` up to the call of `sub_to_room`. */
  function DecideSub(keys: seq<Key>, subs: set<nat>, fields: map<string, Json>): Decision {
    if "grp" !in fields then Refuse(SubNoGrp)
    else match ParseId(fields["grp"])
      case None => Refuse(SubBadGrp)
      case Some(id) =>
        if exists r :: r in subs && r < |keys| && keys[r].id == id
        then Refuse(SubTwice)
        else match FindRoom(keys, id)
          case None => Refuse(SubNoRoom)
          case Some(r) => Join(r)
  }

  /** `handle_create_and_sub` up to the insertion into the directory. */
  function DecideCsub(fields: map<string, Json>): Decision {
    if "grp_name" !in fields then Refuse(CsubNoName)
    else match fields["grp_name"]
      case Text(name) => Create(name)
      case _ => Refuse(CsubBadName)
  }

  /** `parse_message`: a `msg` that is not a string throws, which ends the session. */
  function DecideMsg(keys: seq<Key>, fields: map<string, Json>): Decision {
    if "grp" !in fields then Refuse(MsgNoGrp)
    else if "msg" !in fields then Refuse(MsgNoMsg)
    else match ParseId(fields["grp"])
      case None => Refuse(MsgBadGrp)
      case Some(id) =>
        match FindRoom(keys, id)
        case None => Refuse(MsgNoRoom)
        case Some(r) =>
          match fields["msg"]
          case Text(t) => Post(r, t)
          case _ => Leave
  }

  /** The dispatch of `tcp_accept` over one line, for a session subscribed to the rooms `subs`. */
  function Decide(keys: seq<Key>, subs: set<nat>, line: Line): Decision {
    match line
    case Blank => Ignore
    case Malformed(reason) => Refuse(ParseFailed(reason))
    case NotObject => Refuse(InvalidJson)
    case Fields(fields) =>
      if "type" !in fields || !fields["type"].Text? then Refuse(InvalidJson)
      else
        var kind := CStr(fields["type"].text);
        if kind == "sub" then DecideSub(keys, subs, fields)
        else if kind == "desub" then Leave
        else if kind == "csub" then DecideCsub(fields)
        else if kind == "msg" then DecideMsg(keys, fields)
        else Refuse(InvalidJson)
  }

  const NOT_SUBSCRIBED := Plain(NotSubscribed)

  /** The confirmation frame for a subscription to the room `key`. */
  function Confirmation(key: Key, created: bool): Wire {
    if created then CsubOk(key.id, key.name) else SubOk(key.id, key.name)
  }

  /** The reply a decision leads to. */
  function ReplyFor(d: Decision, keys: seq<Key>, subs: set<nat>): (r: seq<Wire>)
    ensures |r| <= 1
  {
    match d
    case Ignore => []
    case Answer(w) => [w]
    case Join(r) => if r < |keys| then [Confirmation(keys[r], false)] else []
    case Create(name) => [Confirmation(Key(NewId(|keys|), name), true)]
    case Post(r, _) => if r in subs then [] else [NOT_SUBSCRIBED]
    case Leave => []
  }

  /** A session is sent to a room that exists, and to join only a room it is not in. */
  lemma DecisionInRange(keys: seq<Key>, subs: set<nat>, line: Line)
    ensures match Decide(keys, subs, line)
            case Join(r) => r < |keys| && r !in subs
            case Post(r, _) => r < |keys|
            case _ => true
  {
    match Decide(keys, subs, line)
    case Join(r) =>
      var id := ParseId(line.fields["grp"]).value;
      assert FindRoom(keys, id) == Some(r) && keys[r].id == id;
    case _ =>
  }
}
