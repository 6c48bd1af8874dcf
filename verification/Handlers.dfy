/** What each handler does to the game of its sender: the new game and the packets submitted to
    the players. Each handler is one step; the server handles one message at a time. */
module Handlers {
  import opened Wrappers
  import opened Bytes
  import opened Seqs
  import opened Vanjects
  import opened Messages
  import opened Games

  /** A packet submitted to some players of the game. */
  datatype Notice = Notice(to: set<ClientId>, message: Message)

  datatype Error =
    | PlayerNotFound | PlayerWorldEmpty
    | UpdateTooSmall | VanjectParse(error: VanjectError)
    | PairedItemAlreadyExists(id: Id, paired: Id)
    | VanjectNotFound(id: Id) | WrongWorld(id: Id, objectWorld: byte, playerWorld: byte) | NotOwner(id: Id)
    | LegacyItemTransferDelete(id: Id)
    | TransferTooSmall | InvalidKind(kind: byte) | TypeMismatch | IdPairMismatch | NewItemBodyTooSmall
    | LinkedIdMismatch | InvalidDeleteMarker(marker: byte) | OldItemNotFound(id: Id) | NewItemAlreadyExists(id: Id)
    | InvalidWorldSize(expected: u16, given: u16)
    | GameFull | GameNotExists | PayloadInvalid

  datatype Outcome = Done | Failed(error: Error)

  datatype Reply = Reply(game: Game, notices: seq<Notice>, outcome: Outcome)

  function Reject(g: Game, e: Error): Reply {
    Reply(g, [], Failed(e))
  }

  // ---- recipients ----

  /** `client_ids_in_world` without the sender. */
  function InWorld(g: Game, world: int, sender: ClientId): set<ClientId> {
    set p | p in g.players && p.world.Some? && p.world.value as int == world && p.client != sender :: p.client
  }

  /** `notify_game`. */
  function Others(g: Game, sender: ClientId): set<ClientId> {
    set p | p in g.players && p.client != sender :: p.client
  }

  /** `notify_all`. */
  function Everyone(g: Game): set<ClientId> {
    set p | p in g.players :: p.client
  }

  /** Objects go to their world, global ones to the whole game. */
  function Audience(g: Game, id: Id, sender: ClientId): set<ClientId> {
    if id.kind != GLOBAL then InWorld(g, id.world, sender) else Others(g, sender)
  }

  // ---- CREATE_OBJECT ----

  /** `item_linked_id`. */
  function LinkedId(v: Vanject): Option<Id> {
    if |v.body| < 5 then None else Some(FromRaw(FromLe32(v.body[1..])))
  }

  /** `item_has_paired_vanject`. */
  function PairedIn(v: Vanject, vanjects: map<Id, Vanject>): Option<Id> {
    match LinkedId(v)
    case Some(linked) => if IsItem(linked) && linked in vanjects then Some(linked) else None
    case None => None
  }

  /** What a second creation of an object is answered with. */
  function StoredAgain(v: Vanject, client: ClientId): seq<Notice> {
    [Notice({client}, Announce(v))]
    + if v.id.kind == VANGER then [Notice({client}, PlayersPosition(v.owner, v.x, v.y))] else []
  }

  function CreateObject(g: Game, client: ClientId, parsed: Vanject): Reply
    requires HasClient(g, client)
  {
    var p := PlayerOf(g, client);
    if parsed.id in g.vanjects then
      Reply(g, StoredAgain(g.vanjects[parsed.id], client), Done)
    else if IsItem(parsed.id) && PairedIn(parsed, g.vanjects).Some? then
      Reject(g, PairedItemAlreadyExists(parsed.id, PairedIn(parsed, g.vanjects).value))
    else
      var v := parsed.(owner := p.bind);
      var body := BodyOf(v.body);
      var g' := if v.id.kind == VANGER then WithPlayer(g, client, p.(x := v.x, y := v.y, body := body)) else g;
      var notices :=
        if v.id.kind == VANGER && body.None? then []
        else [Notice(Audience(g, v.id, client), Announce(v))];
      Reply(g'.(vanjects := g.vanjects[v.id := v]), notices, Done)
  }

  // ---- UPDATE_OBJECT ----

  /** Which updates are coalesced by the sender's side of each connection. */
  predicate IsRealtime(id: Id) {
    id.kind == VANGER
  }

  /** Objects other than global ones are updated in their world and, unless static, by their owner. */
  function UpdateRefused(v: Vanject, id: Id, p: Player): Option<Error> {
    if v.id.kind == GLOBAL then None
    else if p.world.None? then Some(PlayerWorldEmpty)
    else if p.world.value as int != v.id.world as int then Some(WrongWorld(id, v.id.world, p.world.value))
    else if !v.id.isStatic && v.owner != p.bind then Some(NotOwner(id))
    else None
  }

  function UpdateObject(g: Game, client: ClientId, data: seq<byte>): Reply
    requires HasClient(g, client) && |data| >= 4
  {
    var p, id := PlayerOf(g, client), FromRaw(FromLe32(data));
    if id !in g.vanjects then Reject(g, VanjectNotFound(id))
    else
      var v := g.vanjects[id];
      match UpdateRefused(v, id, p)
      case Some(e) => Reject(g, e)
      case None =>
        match UpdateFromSlice(v, data)
        case Err(e) => Reject(g, VanjectParse(e))
        case Ok(updated) =>
          var v' := updated.(owner := p.bind);
          Reply(g.(vanjects := g.vanjects[id := v']),
                [Notice(Audience(g, v'.id, client), Announce(v'))], Done)
  }

  // ---- DELETE_OBJECT ----

  /** The deletion is passed on in the sender's words. */
  predicate Echoes(g: Game, client: ClientId, id: Id)
    requires HasClient(g, client)
  {
    id in g.vanjects ==> g.vanjects[id].owner == PlayerOf(g, client).bind && !IsItem(id)
  }

  /** `rest` is the payload behind the id. */
  function DeleteObject(g: Game, client: ClientId, id: Id, rest: seq<byte>): Reply
    requires HasClient(g, client)
  {
    var p := PlayerOf(g, client);
    var echo := ObjectDelete(id, p.bind, rest);
    if id !in g.vanjects then Reply(g, [Notice(Audience(g, id, client), echo)], Done)
    else
      var v := g.vanjects[id];
      if v.owner != p.bind then Reject(g, NotOwner(id))
      else if IsItem(v.id) && |rest| > 4 && rest[4] == 1 then Reject(g, LegacyItemTransferDelete(id))
      else
        var linked := LinkedId(v);
        var message :=
          if IsItem(v.id) then
            ItemRemoved(v.id, if linked.Some? then linked.value else NO_ID, ITEM_REMOVED_REASON_DELETE)
          else echo;
        Reply(g.(vanjects := g.vanjects - {id}), [Notice(Audience(g, id, client), message)], Done)
  }

  // ---- ITEM_TRANSFER ----

  const PICKUP: byte := 1
  const DROP: byte := 2
  const TRANSFER_HEADER_SIZE := 10

  datatype Transfer = Transfer(kind: byte, oldId: Id, deleteBody: byte, v: Vanject)

  function ParseTransfer(data: seq<byte>): Result<Transfer, Error> {
    if |data| < TRANSFER_HEADER_SIZE + 14 then Err(TransferTooSmall)
    else if data[0] != PICKUP && data[0] != DROP then Err(InvalidKind(data[0]))
    else
      match CreateFromSlice(data[TRANSFER_HEADER_SIZE..])
      case Err(e) => Err(VanjectParse(e))
      case Ok(v) => Ok(Transfer(data[0], FromRaw(FromLe32(data[1..])), data[9], v))
  }

  /** The four validations that look at the packet alone, in order. */
  function ValidateTransfer(t: Transfer): (e: Option<Error>) {
    if !((t.kind == PICKUP && t.oldId.kind == STUFF && t.v.id.kind == DEVICE)
         || (t.kind == DROP && t.oldId.kind == DEVICE && t.v.id.kind == STUFF)) then Some(TypeMismatch)
    else if t.oldId.station != t.v.id.station || t.oldId.world != t.v.id.world || t.oldId.counter != t.v.id.counter
    then Some(IdPairMismatch)
    else if LinkedId(t.v).None? then Some(NewItemBodyTooSmall)
    else if LinkedId(t.v).value != t.oldId then Some(LinkedIdMismatch)
    else if t.deleteBody != 1 then Some(InvalidDeleteMarker(t.deleteBody))
    else None
  }

  function CheckTransfer(data: seq<byte>): Result<Transfer, Error> {
    match ParseTransfer(data)
    case Err(e) => Err(e)
    case Ok(t) =>
      match ValidateTransfer(t)
      case Some(e) => Err(e)
      case None => Ok(t)
  }

  function TransferRefused(g: Game, p: Player, t: Transfer): Option<Error> {
    if p.world.None? then Some(PlayerWorldEmpty)
    else if t.v.id in g.vanjects then Some(NewItemAlreadyExists(t.v.id))
    else if t.oldId !in g.vanjects then Some(OldItemNotFound(t.oldId))
    else
      var item := g.vanjects[t.oldId];
      if item.id.world as int != p.world.value as int then Some(WrongWorld(t.oldId, item.id.world, p.world.value))
      else if t.v.id.world as int != p.world.value as int then Some(WrongWorld(t.v.id, t.v.id.world, p.world.value))
      else if t.kind == DROP && item.owner != p.bind then Some(NotOwner(t.oldId))
      else None
  }

  function ItemTransfer(g: Game, client: ClientId, t: Transfer): Reply
    requires HasClient(g, client) && ValidateTransfer(t).None?
  {
    var p := PlayerOf(g, client);
    match TransferRefused(g, p, t)
    case Some(e) => Reject(g, e)
    case None =>
      var v := t.v.(owner := p.bind);
      Reply(g.(vanjects := (g.vanjects - {t.oldId})[v.id := v]),
            [Notice(InWorld(g, v.id.world, client), ItemState(t.oldId, AsSent(v)))], Done)
  }

  // ---- LEAVE_WORLD ----

  predicate IsInventory(id: Id) {
    id.kind != GLOBAL && id.kind < 8
  }

  predicate IsPrivate(id: Id) {
    8 <= id.kind <= 10
  }

  predicate ShouldDeleteOnLeaveWorld(v: Vanject, bind: byte) {
    (IsInventory(v.id) && v.owner == bind) || (v.id.station as int == bind as int && IsPrivate(v.id))
  }

  function Doomed(g: Game, bind: byte): set<Id> {
    set id | id in g.vanjects && ShouldDeleteOnLeaveWorld(g.vanjects[id], bind)
  }

  function DeleteNotices(g: Game, bind: byte, to: set<ClientId>, order: seq<Id>): (ns: seq<Notice>)
    requires forall i :: 0 <= i < |order| ==> order[i] in g.vanjects
  {
    if order == [] then []
    else
      [Notice(to, ObjectDelete(order[0], bind, ToLe32(g.vanjects[order[0]].time)))]
      + DeleteNotices(g, bind, to, order[1..])
  }

  lemma {:induction false} DeleteNoticesAt(g: Game, bind: byte, to: set<ClientId>, order: seq<Id>)
    requires forall i :: 0 <= i < |order| ==> order[i] in g.vanjects
    ensures var ns := DeleteNotices(g, bind, to, order);
            |ns| == |order| && forall i :: 0 <= i < |order| ==>
              ns[i] == Notice(to, ObjectDelete(order[i], bind, ToLe32(g.vanjects[order[i]].time)))
  {
    if order != [] {
      DeleteNoticesAt(g, bind, to, order[1..]);
    }
  }

  /** The game after its player left its world. */
  function Left(g: Game, client: ClientId): Game
    requires HasClient(g, client)
  {
    var p := PlayerOf(g, client);
    WithPlayer(g, client, p.(world := None)).(vanjects := g.vanjects - Doomed(g, p.bind))
  }

  lemma DoomedInside(g: Game, bind: byte, order: seq<Id>)
    requires Lists(order, Doomed(g, bind))
    ensures forall i :: 0 <= i < |order| ==> order[i] in g.vanjects
  {
    assert forall i :: 0 <= i < |order| ==> order[i] in order;
  }

  /** `order` is the order in which the map of deletions is walked. */
  function LeaveWorld(g: Game, client: ClientId, order: seq<Id>): Reply
    requires HasClient(g, client)
    requires PlayerOf(g, client).world.Some? ==> Lists(order, Doomed(g, PlayerOf(g, client).bind))
  {
    var p := PlayerOf(g, client);
    if p.world.None? then Reject(g, PlayerWorldEmpty)
    else
      DoomedInside(g, p.bind, order);
      Reply(Left(g, client),
            DeleteNotices(g, p.bind, Others(g, client), order)
            + [Notice(Others(g, client), PlayersWorld(p.bind, 0))], Done)
  }

  // ---- SET_WORLD ----

  function SnapshotOrder(v: Vanject): int {
    if v.id.kind == VANGER then 0
    else if v.id.kind == SLOT then 1
    else if v.id.kind == DEVICE then 2
    else if v.id.kind == SHELL then 3
    else if v.id.kind == STUFF then 4
    else 255
  }

  /** The sort key `(world_snapshot_order(v), v.id)` as one number. */
  function SnapshotKey(v: Vanject): int {
    SnapshotOrder(v) * 0x1_0000_0000 + SignedRank(v.id)
  }

  /** `should_include_in_world_snapshot`. */
  predicate InSnapshot(v: Vanject, world: int, bind: byte) {
    v.id.world as int == world
    && (v.id.kind == STUFF || (v.id.kind in {VANGER, SLOT, DEVICE, SHELL} && v.owner != bind))
  }

  function Values(vanjects: map<Id, Vanject>, walk: seq<Id>): (vs: seq<Vanject>)
    requires forall i :: 0 <= i < |walk| ==> walk[i] in vanjects
    ensures |vs| == |walk| && forall i :: 0 <= i < |vs| ==> vs[i] == vanjects[walk[i]]
  {
    seq(|walk|, i requires 0 <= i < |walk| => vanjects[walk[i]])
  }

  function ShownOf(vs: seq<Vanject>, world: int, bind: byte): seq<Vanject> {
    Filter(vs, (v: Vanject) => InSnapshot(v, world, bind))
  }

  /** The objects of a world snapshot; `walk` is the order in which the table is walked. */
  function Snapshot(vanjects: map<Id, Vanject>, world: int, bind: byte, walk: seq<Id>): seq<Vanject>
    requires forall i :: 0 <= i < |walk| ==> walk[i] in vanjects
  {
    SortByKey(ShownOf(Values(vanjects, walk), world, bind), SnapshotKey)
  }

  function AnnounceAll(vs: seq<Vanject>, to: set<ClientId>): seq<Notice> {
    if vs == [] then [] else [Notice(to, Announce(vs[0]))] + AnnounceAll(vs[1..], to)
  }

  /** `order` and `walk`: the orders in which the deletions of the world switch and then the
      table are walked. */
  function SetWorld(g: Game, client: ClientId, world: byte, ySize: u16, order: seq<Id>, walk: seq<Id>): Reply
    requires HasClient(g, client)
    requires Lists(order, if Switches(g, client, world) then Doomed(g, PlayerOf(g, client).bind) else {})
    requires Lists(walk, AfterSwitch(g, client, world).vanjects.Keys)
  {
    var leaving := if Switches(g, client, world) then LeaveWorld(g, client, order).notices else [];
    var r := Arrive(AfterSwitch(g, client, world), client, world, ySize, walk);
    Reply(r.game, leaving + r.notices, r.outcome)
  }

  /** The rest of SET_WORLD, once the sender is out of any other world. */
  function Arrive(g: Game, client: ClientId, world: byte, ySize: u16, walk: seq<Id>): Reply
    requires HasClient(g, client) && Lists(walk, g.vanjects.Keys)
  {
    match WorldOf(g.worlds, world)
    case Some(w) =>
      if w.ySize != ySize then Reject(g, InvalidWorldSize(w.ySize, ySize)) else Enter(g, client, world, 0, walk)
    case None =>
      Enter(g.(worlds := g.worlds + [World(world, ySize)]), client, world, 1, walk)
  }

  /** The sender is in another world, which it leaves first. */
  predicate Switches(g: Game, client: ClientId, world: byte)
    requires HasClient(g, client)
  {
    PlayerOf(g, client).world.Some? && PlayerOf(g, client).world.value != world
  }

  function AfterSwitch(g: Game, client: ClientId, world: byte): (g': Game)
    requires HasClient(g, client)
    ensures HasClient(g', client)
  {
    if Switches(g, client, world) then
      WithPlayerHas(g, client, PlayerOf(g, client).(world := None));
      Left(g, client)
    else g
  }

  lemma {:induction false} FindUpdate(players: seq<Player>, key: Key, p: Player)
    requires Find(players, key).Some? && Fits(p, key)
    ensures Find(players[Find(players, key).value := p], key) == Find(players, key)
  {
    var i := Find(players, key).value;
    if i > 0 {
      FindUpdate(players[1..], key, p);
      assert players[i := p][1..] == players[1..][i - 1 := p];
    }
  }

  lemma WithPlayerHas(g: Game, client: ClientId, p: Player)
    requires HasClient(g, client) && p.client == client
    ensures HasClient(WithPlayer(g, client, p), client)
    ensures PlayerOf(WithPlayer(g, client, p), client) == p
  {
    FindUpdate(g.players, ByClient(client), p);
  }

  function Enter(g: Game, client: ClientId, world: byte, created: byte, walk: seq<Id>): Reply
    requires HasClient(g, client)
    requires Lists(walk, g.vanjects.Keys)
  {
    assert forall i :: 0 <= i < |walk| ==> walk[i] in walk;
    var p := PlayerOf(g, client);
    var g' := WithPlayer(g, client, Placed(p, world));
    var snapshot := AnnounceAll(Snapshot(g.vanjects, world, p.bind, walk), {client});
    Reply(g', Starting(g, p) + Greeting(g, client, world, created, TotalPlayersData(g'))
              + snapshot + [Notice({client}, SnapshotEnd(world))], Done)
  }

  /** The notice of a player's first entry into a world. */
  function Starting(g: Game, p: Player): seq<Notice> {
    if p.status != GAMING then [Notice(Everyone(g), PlayersStatus(p.bind, StatusCode(GAMING)))] else []
  }

  /** The answers to SET_WORLD that precede the snapshot. */
  function Greeting(g: Game, client: ClientId, world: byte, created: byte, list: seq<byte>): seq<Notice>
    requires HasClient(g, client)
  {
    [Notice(Others(g, client), PlayersWorld(PlayerOf(g, client).bind, world)),
     Notice({client}, SetWorldResponse(world, created)),
     Notice({client}, SnapshotBegin(world)),
     Notice({client}, TotalPlayers(list))]
  }

  // ---- the list of players ----

  /** The name of a player that has not registered one. */
  const UNDEFINED: seq<byte> := [0x5B, 0x55, 0x4E, 0x44, 0x45, 0x46, 0x49, 0x4E, 0x45, 0x44, 0x5D, 0x00]

  function PlayerRecord(p: Player): seq<byte>
    requires p.body.Some?
  {
    [p.bind, StatusCode(p.status), if p.world.Some? then p.world.value else 0] + ToLe16(p.x) + ToLe16(p.y)
    + (if p.name.Some? then p.name.value else UNDEFINED) + p.body.value
  }

  function RemovedRecord(r: RemovedPlayer): seq<byte> {
    [r.bind, StatusCode(r.status), r.world] + ToLe16(r.x) + ToLe16(r.y) + r.name + r.body
  }

  /** Players without a body are left out of the list. */
  function PlayerRecords(players: seq<Player>): seq<seq<byte>> {
    if players == [] then []
    else
      var n := |players| - 1;
      PlayerRecords(players[..n]) + if players[n].body.Some? then [PlayerRecord(players[n])] else []
  }

  function RemovedRecords(removed: seq<RemovedPlayer>): seq<seq<byte>> {
    if removed == [] then []
    else
      var n := |removed| - 1;
      RemovedRecords(removed[..n]) + [RemovedRecord(removed[n])]
  }

  function Flatten(parts: seq<seq<byte>>): seq<byte> {
    if parts == [] then [] else Flatten(parts[..|parts| - 1]) + parts[|parts| - 1]
  }

  /** A one-byte count, which wraps, and the records. */
  function TotalPlayersData(g: Game): seq<byte> {
    var records := PlayerRecords(g.players) + RemovedRecords(g.removed);
    [|records| % 0x100] + Flatten(records)
  }

  // ---- CLOSE_SOCKET, and expiry ----

  function CloseSocket(g: Game, client: ClientId, order: seq<Id>): Reply
    requires HasClient(g, client)
    requires PlayerOf(g, client).world.Some? ==> Lists(order, Doomed(g, PlayerOf(g, client).bind))
  {
    var left := LeaveWorld(g, client, order);
    WithPlayerHas(g, client, PlayerOf(g, client).(world := None));
    Reply(Finished(left.game, client), left.notices + FinishNotices(left.game, client), Done)
  }

  /** The rest of CLOSE_SOCKET, once the sender is out of any world. */
  function Finished(g: Game, client: ClientId): Game
    requires HasClient(g, client)
  {
    var p := PlayerOf(g, client);
    var removed :=
      match FromPlayer(p.(world := None, status := if p.status == GAMING then FINISHED else p.status))
      case Some(r) => Filter(g.removed, (o: RemovedPlayer) => o.bind != r.bind) + [r]
      case None => g.removed;
    g.(players := Filter(g.players, (o: Player) => o.client != client), removed := removed)
  }

  function FinishNotices(g: Game, client: ClientId): seq<Notice>
    requires HasClient(g, client)
  {
    var p := PlayerOf(g, client);
    if p.status == GAMING then [Notice(Others(g, client), PlayersStatus(p.bind, StatusCode(FINISHED)))] else []
  }

  // ---- ATTACH_TO_GAME ----

  /** The largest counter among the stored ids of a station and type, 0 if there is none. */
  function MaxCounter(walk: seq<Id>, station: int, kind: int): u16 {
    if walk == [] then 0
    else
      var n := |walk| - 1;
      var rest := MaxCounter(walk[..n], station, kind);
      if walk[n].kind as int == kind && walk[n].station as int == station && rest < walk[n].counter
      then walk[n].counter else rest
  }

  /** `object_ID_offsets[kind]`, a wrapping increment of a non-zero counter. */
  function OffsetOf(counter: u16): u16 {
    if counter != 0 then (counter + 1) % 0x1_0000 else counter
  }

  function Offsets(walk: seq<Id>, station: int): (os: seq<u16>)
    ensures |os| == 16
    ensures forall kind :: 0 <= kind < 16 ==> os[kind] == OffsetOf(MaxCounter(walk, station, kind))
  {
    seq(16, kind => OffsetOf(MaxCounter(walk, station, kind)))
  }

  function Globals(vanjects: map<Id, Vanject>, walk: seq<Id>): seq<Vanject>
    requires forall i :: 0 <= i < |walk| ==> walk[i] in vanjects
  {
    Filter(Values(vanjects, walk), (v: Vanject) => v.id.kind == GLOBAL)
  }

  function AnnounceGlobals(vs: seq<Vanject>, to: set<ClientId>): seq<Notice> {
    if vs == [] then [] else [Notice(to, ObjectUpdate(AsSent(vs[0])))] + AnnounceGlobals(vs[1..], to)
  }

  /** The offsets are kept in an array of 16: the ids of the station that is about to be taken must
      have types below 16. */
  ghost predicate OffsetsInBounds(g: Game) {
    var slot := FreeSlot(g.players, MIN_PLAYER_ID);
    slot.Some? ==> forall id :: id in g.vanjects && id.station as int == slot.value as int ==> id.kind < 16
  }

  /** Attaching to an existing game; `birth` and `unix` are clock readings. */
  function Attach(g: Game, client: ClientId, birth: u32, unix: u32, walk: seq<Id>): Reply
    requires Lists(walk, g.vanjects.Keys) && OffsetsInBounds(g)
  {
    assert forall i :: 0 <= i < |walk| ==> walk[i] in walk;
    match AttachPlayer(g, client)
    case None => Reject(g, GameFull)
    case Some(g') =>
      var slot := FreeSlot(g.players, MIN_PLAYER_ID).value;
      Reply(g', [Notice({client}, AttachResponse(g.id, g.configured, birth, slot, Offsets(walk, slot as int))),
                 Notice({client}, ZTime(unix))]
                + AnnounceGlobals(Globals(g.vanjects, walk), {client}), Done)
  }

  // ---- RESTORE_CONNECTION, disconnection ----

  function IndexOfBind(players: seq<Player>, bind: byte): (r: Option<nat>)
    ensures r.Some? ==> r.value < |players| && players[r.value].bind == bind
    ensures r.None? ==> forall i :: 0 <= i < |players| ==> players[i].bind != bind
  {
    assert forall i :: 0 <= i < |players| ==> (Fits(players[i], BySlot(bind)) <==> players[i].bind == bind);
    Find(players, BySlot(bind))
  }

  function RestoreConnection(g: Game, client: ClientId, bind: byte): Game {
    match IndexOfBind(g.players, bind)
    case None => g
    case Some(i) => g.(players := g.players[i := g.players[i].(client := client, deadline := None)])
  }

  function MarkDisconnected(g: Game, client: ClientId, deadline: nat): Game
    requires HasClient(g, client)
  {
    WithPlayer(g, client, PlayerOf(g, client).(deadline := Some(deadline)))
  }
}
