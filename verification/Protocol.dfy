/** Packets and their byte form. */
module Protocol {
  import opened Wrappers
  import opened Bytes

  datatype Action =
    | UNKNOWN | CREATE_OBJECT | DELETE_OBJECT | UPDATE_OBJECT | HIDE_OBJECT
    | GAMES_LIST_QUERY | TOP_LIST_QUERY | ATTACH_TO_GAME | RESTORE_CONNECTION | CLOSE_SOCKET
    | REGISTER_NAME | SERVER_TIME_QUERY | SET_WORLD | LEAVE_WORLD | SET_POSITION
    | TOTAL_PLAYERS_DATA_QUERY | SET_GAME_DATA | GET_GAME_DATA | SET_PLAYER_DATA
    | DIRECT_SENDING | ITEM_TRANSFER
    | GAMES_LIST_RESPONSE | TOP_LIST_RESPONSE | TOTAL_LIST_OF_PLAYERS_DATA
    | ATTACH_TO_GAME_RESPONSE | RESTORE_CONNECTION_RESPONSE | SERVER_TIME | SERVER_TIME_RESPONSE
    | SET_WORLD_RESPONSE | GAME_DATA_RESPONSE | DIRECT_RECEIVING | PLAYERS_NAME
    | PLAYERS_POSITION | PLAYERS_WORLD | PLAYERS_STATUS | PLAYERS_DATA | PLAYERS_RATING
    | WORLD_SNAPSHOT_BEGIN | WORLD_SNAPSHOT_END | ITEM_STATE | ITEM_REMOVED | Z_TIME_RESPONSE

  function ToU8(a: Action): byte {
    match a
    case UNKNOWN => 0x00
    case CREATE_OBJECT => 0x02
    case DELETE_OBJECT => 0x04
    case UPDATE_OBJECT => 0x08
    case HIDE_OBJECT => 0x0C
    case GAMES_LIST_QUERY => 0x81
    case TOP_LIST_QUERY => 0x82
    case ATTACH_TO_GAME => 0x83
    case RESTORE_CONNECTION => 0x84
    case CLOSE_SOCKET => 0x86
    case REGISTER_NAME => 0x88
    case SERVER_TIME_QUERY => 0x89
    case SET_WORLD => 0x8B
    case LEAVE_WORLD => 0x8C
    case SET_POSITION => 0x8D
    case TOTAL_PLAYERS_DATA_QUERY => 0x91
    case SET_GAME_DATA => 0x92
    case GET_GAME_DATA => 0x93
    case SET_PLAYER_DATA => 0x94
    case DIRECT_SENDING => 0x95
    case ITEM_TRANSFER => 0x96
    case GAMES_LIST_RESPONSE => 0xC1
    case TOP_LIST_RESPONSE => 0xC2
    case TOTAL_LIST_OF_PLAYERS_DATA => 0xCC
    case ATTACH_TO_GAME_RESPONSE => 0xC3
    case RESTORE_CONNECTION_RESPONSE => 0xC4
    case SERVER_TIME => 0xC6
    case SERVER_TIME_RESPONSE => 0xC7
    case SET_WORLD_RESPONSE => 0xC8
    case GAME_DATA_RESPONSE => 0xCD
    case DIRECT_RECEIVING => 0xCE
    case PLAYERS_NAME => 0xD5
    case PLAYERS_POSITION => 0xCF
    case PLAYERS_WORLD => 0xD1
    case PLAYERS_STATUS => 0xD2
    case PLAYERS_DATA => 0xD3
    case PLAYERS_RATING => 0xD4
    case WORLD_SNAPSHOT_BEGIN => 0xD6
    case WORLD_SNAPSHOT_END => 0xD7
    case ITEM_STATE => 0xD8
    case ITEM_REMOVED => 0xD9
    case Z_TIME_RESPONSE => 0xE3
  }

  function FromU8(b: byte): Option<Action> {
    match b
    case 0x00 => Some(UNKNOWN)
    case 0x02 => Some(CREATE_OBJECT)
    case 0x04 => Some(DELETE_OBJECT)
    case 0x08 => Some(UPDATE_OBJECT)
    case 0x0C => Some(HIDE_OBJECT)
    case 0x81 => Some(GAMES_LIST_QUERY)
    case 0x82 => Some(TOP_LIST_QUERY)
    case 0x83 => Some(ATTACH_TO_GAME)
    case 0x84 => Some(RESTORE_CONNECTION)
    case 0x86 => Some(CLOSE_SOCKET)
    case 0x88 => Some(REGISTER_NAME)
    case 0x89 => Some(SERVER_TIME_QUERY)
    case 0x8B => Some(SET_WORLD)
    case 0x8C => Some(LEAVE_WORLD)
    case 0x8D => Some(SET_POSITION)
    case 0x91 => Some(TOTAL_PLAYERS_DATA_QUERY)
    case 0x92 => Some(SET_GAME_DATA)
    case 0x93 => Some(GET_GAME_DATA)
    case 0x94 => Some(SET_PLAYER_DATA)
    case 0x95 => Some(DIRECT_SENDING)
    case 0x96 => Some(ITEM_TRANSFER)
    case 0xC1 => Some(GAMES_LIST_RESPONSE)
    case 0xC2 => Some(TOP_LIST_RESPONSE)
    case 0xCC => Some(TOTAL_LIST_OF_PLAYERS_DATA)
    case 0xC3 => Some(ATTACH_TO_GAME_RESPONSE)
    case 0xC4 => Some(RESTORE_CONNECTION_RESPONSE)
    case 0xC6 => Some(SERVER_TIME)
    case 0xC7 => Some(SERVER_TIME_RESPONSE)
    case 0xC8 => Some(SET_WORLD_RESPONSE)
    case 0xCD => Some(GAME_DATA_RESPONSE)
    case 0xCE => Some(DIRECT_RECEIVING)
    case 0xD5 => Some(PLAYERS_NAME)
    case 0xCF => Some(PLAYERS_POSITION)
    case 0xD1 => Some(PLAYERS_WORLD)
    case 0xD2 => Some(PLAYERS_STATUS)
    case 0xD3 => Some(PLAYERS_DATA)
    case 0xD4 => Some(PLAYERS_RATING)
    case 0xD6 => Some(WORLD_SNAPSHOT_BEGIN)
    case 0xD7 => Some(WORLD_SNAPSHOT_END)
    case 0xD8 => Some(ITEM_STATE)
    case 0xD9 => Some(ITEM_REMOVED)
    case 0xE3 => Some(Z_TIME_RESPONSE)
    case _ => None
  }

  function RequestToResponse(a: Action): Option<Action> {
    match a
    case GAMES_LIST_QUERY => Some(GAMES_LIST_RESPONSE)
    case TOP_LIST_QUERY => Some(TOP_LIST_RESPONSE)
    case ATTACH_TO_GAME => Some(ATTACH_TO_GAME_RESPONSE)
    case RESTORE_CONNECTION => Some(RESTORE_CONNECTION_RESPONSE)
    case SERVER_TIME_QUERY => Some(SERVER_TIME)
    case TOTAL_PLAYERS_DATA_QUERY => Some(TOTAL_LIST_OF_PLAYERS_DATA)
    case REGISTER_NAME => Some(PLAYERS_NAME)
    case SET_PLAYER_DATA => Some(PLAYERS_DATA)
    case GET_GAME_DATA => Some(GAME_DATA_RESPONSE)
    case SET_WORLD => Some(SET_WORLD_RESPONSE)
    case DIRECT_SENDING => Some(DIRECT_RECEIVING)
    case _ => None
  }

  /** The largest value of `i16`, the type of a packet's size field. */
  const I16_MAX := 0x7FFF

  datatype Packet = Packet(eventSize: int, action: Action, realAction: byte, data: seq<byte>)

  /** Built by `New` or `CreateAnswer`, or read from a frame whose size field is right. */
  predicate Consistent(p: Packet) {
    && p.eventSize == |p.data| + 1 <= I16_MAX
    && p.action == (match FromU8(p.realAction) case Some(a) => a case None => UNKNOWN)
  }

  function New(action: Action, data: seq<byte>): (p: Packet)
    requires |data| + 1 <= I16_MAX
  {
    Packet(|data| + 1, action, ToU8(action), data)
  }

  function CreateAnswer(request: Packet, data: seq<byte>): (p: Option<Packet>) {
    match RequestToResponse(request.action)
    case None => None
    case Some(action) =>
      if |data| + 1 <= I16_MAX then Some(Packet(|data| + 1, action, ToU8(action), data)) else None
  }

  function AsBytes(p: Packet): (s: seq<byte>)
    requires |p.data| + 1 <= I16_MAX
  {
    var action := if p.action == UNKNOWN then p.realAction else ToU8(p.action);
    ToLe16(|p.data| + 1) + [action] + p.data
  }

  const DEFAULT_PACKET := Packet(1, UNKNOWN, 0x00, [])

  /** Meant for frames: the size field is a non-negative `i16`. */
  function FromSlice(buff: seq<byte>): (p: Packet)
    requires |buff| >= 3 ==> FromLe16(buff) <= I16_MAX
  {
    if |buff| < 3 then DEFAULT_PACKET
    else
      var action := match FromU8(buff[2]) case Some(a) => a case None => UNKNOWN;
      Packet(FromLe16(buff), action, buff[2], buff[3..])
  }

  lemma ActionCodes(a: Action)
    ensures FromU8(ToU8(a)) == Some(a)
  {
  }

  lemma BuiltPacketsAreConsistent(action: Action, request: Packet, data: seq<byte>)
    requires |data| + 1 <= I16_MAX
    ensures Consistent(New(action, data))
    ensures CreateAnswer(request, data).Some? ==> Consistent(CreateAnswer(request, data).value)
  {
    ActionCodes(action);
    if RequestToResponse(request.action).Some? {
      ActionCodes(RequestToResponse(request.action).value);
    }
  }

  /** A frame is read back as the packet it was written from; a byte that is no known
      action survives in `realAction`. */
  lemma PacketRoundTrip(p: Packet)
    requires Consistent(p)
    ensures |AsBytes(p)| == 2 + p.eventSize
    ensures FromLe16(AsBytes(p)) == p.eventSize
    ensures FromSlice(AsBytes(p)) == p
  {
    var s := AsBytes(p);
    ActionCodes(p.action);
    assert s[0] == ToLe16(p.eventSize)[0] && s[1] == ToLe16(p.eventSize)[1];
    assert s[2] == p.realAction by {
      CodeOfKnownAction(p.realAction);
    }
    assert s[3..] == p.data;
  }

  predicate CodeIsRead(b: byte) {
    FromU8(b).Some? ==> ToU8(FromU8(b).value) == b
  }

  lemma CodesOfRequests(b: byte)
    requires b < 0x8B
    ensures CodeIsRead(b)
  {
  }

  lemma CodesOfMoreRequests(b: byte)
    requires 0x8B <= b < 0xC5
    ensures CodeIsRead(b)
  {
  }

  lemma CodesOfResponses(b: byte)
    requires 0xC5 <= b < 0xD0
    ensures CodeIsRead(b)
  {
  }

  lemma CodesOfNotices(b: byte)
    requires 0xD0 <= b
    ensures CodeIsRead(b)
  {
  }

  lemma CodeOfKnownAction(b: byte)
    ensures CodeIsRead(b)
  {
    if b < 0x8B {
      CodesOfRequests(b);
    } else if b < 0xC5 {
      CodesOfMoreRequests(b);
    } else if b < 0xD0 {
      CodesOfResponses(b);
    } else {
      CodesOfNotices(b);
    }
  }

  /** Writing back a frame that was read gives the same bytes when its size field is right. */
  lemma FrameRoundTrip(frame: seq<byte>)
    requires |frame| >= 3 && FromLe16(frame) == |frame| - 2 <= I16_MAX
    ensures Consistent(FromSlice(frame)) && AsBytes(FromSlice(frame)) == frame
  {
    CodeOfKnownAction(frame[2]);
    assert ToLe16(|frame| - 2) == frame[..2];
    assert frame == frame[..2] + [frame[2]] + frame[3..];
  }
}
