/** The packets that the handlers send, and how a client reads those about objects. */
module Messages {
  import opened Wrappers
  import opened Bytes
  import opened Protocol
  import opened Vanjects

  datatype Message =
    | ObjectUpdate(v: Vanject)
    | ItemState(previous: Id, v: Vanject)
    | ObjectDelete(id: Id, deleter: byte, rest: seq<byte>)
    | ItemRemoved(id: Id, paired: Id, reason: byte)
    | PlayersPosition(bind: byte, x: u16, y: u16)
    | PlayersWorld(bind: byte, world: byte)
    | PlayersStatus(bind: byte, status: byte)
    | SetWorldResponse(world: byte, created: byte)
    | SnapshotBegin(world: byte)
    | SnapshotEnd(world: byte)
    | TotalPlayers(list: seq<byte>)
    | AttachResponse(game: u32, configured: bool, birth: u32, bind: byte, offsets: seq<u16>)
    | ZTime(unix: u32)
    | RestoreResponse(restored: bool)

  const ITEM_STATE_IN_INVENTORY: byte := 1
  const ITEM_STATE_IN_WORLD: byte := 2
  const ITEM_REMOVED_REASON_DELETE: byte := 1

  /** The id that `previous_id` 0 stands for. */
  const NO_ID := Id(false, 0, 0, GLOBAL, 0)

  function ItemStateOf(v: Vanject): byte {
    if v.id.kind == DEVICE then ITEM_STATE_IN_INVENTORY
    else if v.id.kind == STUFF then ITEM_STATE_IN_WORLD
    else 0
  }

  predicate IsItem(id: Id) {
    id.kind == STUFF || id.kind == DEVICE
  }

  /** How an object is announced outside transfers. */
  function Announce(v: Vanject): Message {
    if IsItem(v.id) then ItemState(NO_ID, AsSent(v)) else ObjectUpdate(AsSent(v))
  }

  function ConcatLe16(xs: seq<u16>): seq<byte> {
    if xs == [] then [] else ToLe16(xs[0]) + ConcatLe16(xs[1..])
  }

  function Bit(b: bool): byte {
    if b then 1 else 0
  }

  function ActionOf(m: Message): Action {
    match m
    case ObjectUpdate(_) => UPDATE_OBJECT
    case ItemState(_, _) => ITEM_STATE
    case ObjectDelete(_, _, _) => DELETE_OBJECT
    case ItemRemoved(_, _, _) => ITEM_REMOVED
    case PlayersPosition(_, _, _) => PLAYERS_POSITION
    case PlayersWorld(_, _) => PLAYERS_WORLD
    case PlayersStatus(_, _) => PLAYERS_STATUS
    case SetWorldResponse(_, _) => SET_WORLD_RESPONSE
    case SnapshotBegin(_) => WORLD_SNAPSHOT_BEGIN
    case SnapshotEnd(_) => WORLD_SNAPSHOT_END
    case TotalPlayers(_) => TOTAL_LIST_OF_PLAYERS_DATA
    case AttachResponse(_, _, _, _, _) => ATTACH_TO_GAME_RESPONSE
    case ZTime(_) => Z_TIME_RESPONSE
    case RestoreResponse(_) => RESTORE_CONNECTION_RESPONSE
  }

  function Payload(m: Message): seq<byte> {
    match m
    case ObjectUpdate(v) => ToVangersByte(v)
    case ItemState(previous, v) => [ItemStateOf(v)] + ToLe32(ToRaw(previous)) + ToVangersByte(v)
    case ObjectDelete(id, deleter, rest) => ToLe32(ToRaw(id)) + [deleter] + rest
    case ItemRemoved(id, paired, reason) => ToLe32(ToRaw(id)) + ToLe32(ToRaw(paired)) + [reason]
    case PlayersPosition(bind, x, y) => [bind] + ToLe16(x) + ToLe16(y)
    case PlayersWorld(bind, world) => [bind, world]
    case PlayersStatus(bind, status) => [bind, status]
    case SetWorldResponse(world, created) => [world, created]
    case SnapshotBegin(world) => [world]
    case SnapshotEnd(world) => [world]
    case TotalPlayers(list) => list
    case AttachResponse(game, configured, birth, bind, offsets) =>
      ToLe32(game) + [Bit(configured)] + ToLe32(birth) + [bind] + ConcatLe16(offsets)
    case ZTime(unix) => ToLe32(unix)
    case RestoreResponse(restored) => [Bit(restored)]
  }

  function Encode(m: Message): Packet
    requires |Payload(m)| + 1 <= I16_MAX
  {
    New(ActionOf(m), Payload(m))
  }

  // ---- how a client reads the packets ----

  /** The state in front of an item contradicts no id: 1 is a carried device, 2 a lying stuff. */
  predicate StateFits(state: byte, raw: u32) {
    (state == 1 <==> GetVanjectType(raw) == 0x1_0000) && (state == 2 <==> GetVanjectType(raw) == 0xB_0000)
  }

  function DecodeItemState(data: seq<byte>): Option<Message> {
    if |data| < 18 || !StateFits(data[0], FromLe32(data[5..])) then None
    else Some(ItemState(FromRaw(FromLe32(data[1..])), FromVangersByte(data[5..])))
  }

  /** The packets about objects. */
  function Decode(p: Packet): Option<Message> {
    if p.action == UPDATE_OBJECT && |p.data| >= 13 then Some(ObjectUpdate(FromVangersByte(p.data)))
    else if p.action == ITEM_STATE then DecodeItemState(p.data)
    else if p.action == DELETE_OBJECT && |p.data| >= 5 then
      Some(ObjectDelete(FromRaw(FromLe32(p.data)), p.data[4], p.data[5..]))
    else if p.action == ITEM_REMOVED && |p.data| >= 9 then
      Some(ItemRemoved(FromRaw(FromLe32(p.data)), FromRaw(FromLe32(p.data[4..])), p.data[8]))
    else None
  }

  function ReadLe16s(data: seq<byte>): seq<u16> {
    if |data| < 2 then [] else [FromLe16(data)] + ReadLe16s(data[2..])
  }

  /** The packets about players and the answers. */
  function DecodeNotice(p: Packet): Option<Message> {
    if p.action == PLAYERS_POSITION && |p.data| == 5 then
      Some(PlayersPosition(p.data[0], FromLe16(p.data[1..]), FromLe16(p.data[3..])))
    else if p.action == PLAYERS_WORLD && |p.data| == 2 then Some(PlayersWorld(p.data[0], p.data[1]))
    else if p.action == PLAYERS_STATUS && |p.data| == 2 then Some(PlayersStatus(p.data[0], p.data[1]))
    else if p.action == SET_WORLD_RESPONSE && |p.data| == 2 then Some(SetWorldResponse(p.data[0], p.data[1]))
    else if p.action == WORLD_SNAPSHOT_BEGIN && |p.data| == 1 then Some(SnapshotBegin(p.data[0]))
    else if p.action == WORLD_SNAPSHOT_END && |p.data| == 1 then Some(SnapshotEnd(p.data[0]))
    else if p.action == TOTAL_LIST_OF_PLAYERS_DATA then Some(TotalPlayers(p.data))
    else if p.action == ATTACH_TO_GAME_RESPONSE && |p.data| == 42 then
      Some(AttachResponse(FromLe32(p.data), p.data[4] == 1, FromLe32(p.data[5..]), p.data[9], ReadLe16s(p.data[10..])))
    else if p.action == Z_TIME_RESPONSE && |p.data| == 4 then Some(ZTime(FromLe32(p.data)))
    else if p.action == RESTORE_CONNECTION_RESPONSE && |p.data| == 1 then Some(RestoreResponse(p.data[0] == 1))
    else None
  }

  predicate AboutObject(m: Message) {
    match m
    case ObjectUpdate(v) => v == AsSent(v)
    case ItemState(_, v) => v == AsSent(v)
    case ObjectDelete(_, _, _) => true
    case ItemRemoved(_, _, _) => true
    case _ => false
  }

  lemma RawRoundTrip(id: Id, tail: seq<byte>)
    ensures |ToLe32(ToRaw(id))| == 4 && FromRaw(FromLe32(ToLe32(ToRaw(id)) + tail)) == id
  {
    Le32RoundTrip(ToRaw(id), tail);
    IdToRawToId(id);
  }

  lemma BehindTheFirst(raw: seq<byte>, body: seq<byte>, s: seq<byte>)
    requires |raw| == 4 && s != [] && s == [s[0]] + raw + body
    ensures s[1..] == raw + body && s[5..] == body
  {
  }

  /** The state of an item is that of the type field of the id behind it, bit for bit. */
  lemma StateByteFits(v: Vanject)
    ensures StateFits(ItemStateOf(v), ToRaw(v.id))
    ensures ItemStateOf(v) <= 2
  {
    IdToRawToId(v.id);
    Classifiers(ToRaw(v.id));
    assert GetVanjectType(ToRaw(v.id)) == v.id.kind * 0x1_0000;
  }

  /** In the bytes of an ITEM_STATE packet the state is 1 exactly if the id at offset 5 is a device's,
      and 2 exactly if it is a lying item's. */
  lemma StateByteOnWire(previous: Id, v: Vanject)
    requires |Payload(ItemState(previous, v))| + 1 <= I16_MAX
    ensures var data := Encode(ItemState(previous, v)).data;
            && |data| >= 18 && StateFits(data[0], FromLe32(data[5..]))
            && FromLe32(data[5..]) == ToRaw(v.id) && FromLe32(data[1..]) == ToRaw(previous)
  {
    var s, body := Payload(ItemState(previous, v)), ToVangersByte(v);
    BehindTheFirst(ToLe32(ToRaw(previous)), body, s);
    Le32RoundTrip(ToRaw(previous), body);
    BroadcastRoundTrip(v);
    Le32RoundTrip(ToRaw(v.id), body[4..]);
    assert body == ToLe32(ToRaw(v.id)) + body[4..];
    StateByteFits(v);
  }

  lemma ItemStateRoundTrip(previous: Id, v: Vanject)
    requires v == AsSent(v) && |Payload(ItemState(previous, v))| + 1 <= I16_MAX
    ensures Decode(Encode(ItemState(previous, v))) == Some(ItemState(previous, v))
  {
    var s := Payload(ItemState(previous, v));
    BroadcastRoundTrip(v);
    RawRoundTrip(previous, ToVangersByte(v));
    BehindTheFirst(ToLe32(ToRaw(previous)), ToVangersByte(v), s);
    StateByteOnWire(previous, v);
  }

  lemma RemovalRoundTrip(m: Message)
    requires m.ObjectDelete? || m.ItemRemoved?
    requires |Payload(m)| + 1 <= I16_MAX
    ensures Decode(Encode(m)) == Some(m)
  {
    var s := Payload(m);
    match m
    case ObjectDelete(id, deleter, rest) =>
      RawRoundTrip(id, [deleter] + rest);
      assert s == ToLe32(ToRaw(id)) + ([deleter] + rest) && s[5..] == rest;
    case ItemRemoved(id, paired, reason) =>
      RawRoundTrip(paired, [reason]);
      RawRoundTrip(id, ToLe32(ToRaw(paired)) + [reason]);
      assert s == ToLe32(ToRaw(id)) + (ToLe32(ToRaw(paired)) + [reason]);
      assert s[4..] == ToLe32(ToRaw(paired)) + [reason];
  }

  /** A client reads every object packet as it was meant. */
  lemma ObjectPacketsRoundTrip(m: Message)
    requires AboutObject(m) && |Payload(m)| + 1 <= I16_MAX
    ensures Decode(Encode(m)) == Some(m)
  {
    match m
    case ObjectUpdate(v) => BroadcastRoundTrip(v);
    case ItemState(previous, v) => ItemStateRoundTrip(previous, v);
    case _ => RemovalRoundTrip(m);
  }

  // ---- the packets about players and the answers ----

  predicate AboutPlayers(m: Message) {
    !m.ObjectUpdate? && !m.ItemState? && !m.ObjectDelete? && !m.ItemRemoved?
    && (m.AttachResponse? ==> |m.offsets| == 16)
  }

  lemma {:induction false} Le16sRoundTrip(xs: seq<u16>)
    ensures |ConcatLe16(xs)| == 2 * |xs| && ReadLe16s(ConcatLe16(xs)) == xs
  {
    if xs != [] {
      Le16sRoundTrip(xs[1..]);
      assert ConcatLe16(xs)[2..] == ConcatLe16(xs[1..]);
      assert xs == [xs[0]] + xs[1..];
    }
  }

  lemma AttachResponseRoundTrip(m: Message)
    requires m.AttachResponse? && |m.offsets| == 16 && |Payload(m)| + 1 <= I16_MAX
    ensures DecodeNotice(Encode(m)) == Some(m)
  {
    var offsets := ConcatLe16(m.offsets);
    Le16sRoundTrip(m.offsets);
    Le32RoundTrip(m.game, [Bit(m.configured)] + ToLe32(m.birth) + [m.bind] + offsets);
    Le32RoundTrip(m.birth, [m.bind] + offsets);
    AttachParts(ToLe32(m.game), Bit(m.configured), ToLe32(m.birth), m.bind, offsets);
  }

  lemma AttachParts(game: seq<byte>, configured: byte, birth: seq<byte>, bind: byte, offsets: seq<byte>)
    requires |game| == 4 && |birth| == 4
    ensures var s := game + [configured] + birth + [bind] + offsets;
            && s == game + ([configured] + birth + [bind] + offsets)
            && s[4] == configured && s[5..] == birth + ([bind] + offsets) && s[9] == bind && s[10..] == offsets
  {
  }

  lemma TimeRoundTrip(unix: u32)
    ensures DecodeNotice(Encode(ZTime(unix))) == Some(ZTime(unix))
  {
    Le32RoundTrip(unix, []);
    assert ToLe32(unix) + [] == ToLe32(unix);
  }

  lemma PositionRoundTrip(bind: byte, x: u16, y: u16)
    ensures DecodeNotice(Encode(PlayersPosition(bind, x, y))) == Some(PlayersPosition(bind, x, y))
  {
    var s := Payload(PlayersPosition(bind, x, y));
    assert s[1] == x % 0x100 && s[2] == x / 0x100 && s[3] == y % 0x100 && s[4] == y / 0x100;
  }

  lemma ShortRoundTrip(m: Message)
    requires AboutPlayers(m) && !m.AttachResponse? && !m.ZTime? && !m.PlayersPosition? && |Payload(m)| + 1 <= I16_MAX
    ensures DecodeNotice(Encode(m)) == Some(m)
  {
  }

  /** Every other packet is read as it was meant as well. */
  lemma NoticePacketsRoundTrip(m: Message)
    requires AboutPlayers(m) && |Payload(m)| + 1 <= I16_MAX
    ensures DecodeNotice(Encode(m)) == Some(m)
  {
    match m
    case AttachResponse(_, _, _, _, _) => AttachResponseRoundTrip(m);
    case ZTime(unix) => TimeRoundTrip(unix);
    case PlayersPosition(bind, x, y) => PositionRoundTrip(bind, x, y);
    case _ => ShortRoundTrip(m);
  }

  /** The answers to SET_WORLD and ATTACH_TO_GAME are the ones that `create_answer` makes. */
  lemma AnswersAreMessages(request: Packet, m: Message)
    requires |Payload(m)| + 1 <= I16_MAX
    requires (request.action == SET_WORLD && m.SetWorldResponse?)
             || (request.action == ATTACH_TO_GAME && m.AttachResponse?)
             || (request.action == TOTAL_PLAYERS_DATA_QUERY && m.TotalPlayers?)
    ensures CreateAnswer(request, Payload(m)) == Some(Encode(m))
  {
  }

  /** The third byte of each packet on the wire. */
  lemma CodesOnWire(m: Message)
    requires |Payload(m)| + 1 <= I16_MAX
    ensures |AsBytes(Encode(m))| >= 3
    ensures AsBytes(Encode(m))[2]
            == match m
               case ObjectDelete(_, _, _) => 0x04
               case ObjectUpdate(_) => 0x08
               case AttachResponse(_, _, _, _, _) => 0xC3
               case RestoreResponse(_) => 0xC4
               case SetWorldResponse(_, _) => 0xC8
               case TotalPlayers(_) => 0xCC
               case PlayersPosition(_, _, _) => 0xCF
               case PlayersWorld(_, _) => 0xD1
               case PlayersStatus(_, _) => 0xD2
               case SnapshotBegin(_) => 0xD6
               case SnapshotEnd(_) => 0xD7
               case ItemState(_, _) => 0xD8
               case ItemRemoved(_, _, _) => 0xD9
               case ZTime(_) => 0xE3
  {
  }
}
