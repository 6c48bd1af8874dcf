/** A game: its players and their slots, its worlds, its object table. */
module Games {
  import opened Wrappers
  import opened Bytes
  import opened Seqs
  import opened Vanjects

  type ClientId = nat

  datatype Status = INITIAL | GAMING | FINISHED

  function StatusCode(s: Status): byte {
    match s case INITIAL => 0 case GAMING => 1 case FINISHED => 2
  }

  datatype Player = Player(
    client: ClientId, bind: byte, name: Option<seq<byte>>, body: Option<seq<byte>>, world: Option<byte>,
    x: u16, y: u16, status: Status, deadline: Option<nat>)

  datatype RemovedPlayer = RemovedPlayer(
    bind: byte, status: Status, world: byte, x: u16, y: u16, name: seq<byte>, body: seq<byte>)

  datatype World = World(id: byte, ySize: u16)

  datatype Game = Game(
    id: u32, configured: bool, players: seq<Player>, removed: seq<RemovedPlayer>, worlds: seq<World>,
    vanjects: map<Id, Vanject>)

  const MIN_PLAYER_ID: byte := 1
  const MAX_PLAYER_ID: byte := 30

  function NewGame(id: u32): Game {
    Game(id, false, [], [], [], map[])
  }

  function NewPlayer(client: ClientId, bind: byte): Player {
    Player(client, bind, None, None, None, 0, 0, INITIAL, None)
  }

  /** `Body::from_slice`: a body is kept if it has its 25 fixed bytes. */
  function BodyOf(slice: seq<byte>): Option<seq<byte>> {
    if |slice| < 25 then None else Some(slice)
  }

  // ---- lookups ----

  /** What a player is looked up by. */
  datatype Key = ByClient(client: ClientId) | BySlot(bind: byte)

  predicate Fits(p: Player, key: Key) {
    match key
    case ByClient(client) => p.client == client
    case BySlot(bind) => p.bind == bind
  }

  /** `iter().find` on the players. */
  function Find(players: seq<Player>, key: Key): (r: Option<nat>)
    ensures r.Some? ==> r.value < |players| && Fits(players[r.value], key)
    ensures r.None? ==> forall i :: 0 <= i < |players| ==> !Fits(players[i], key)
  {
    if players == [] then None
    else if Fits(players[0], key) then Some(0)
    else
      match Find(players[1..], key)
      case None => None
      case Some(i) => Some(i + 1)
  }

  function IndexOf(players: seq<Player>, client: ClientId): (r: Option<nat>)
    ensures r.Some? ==> r.value < |players| && players[r.value].client == client
    ensures r.None? ==> forall i :: 0 <= i < |players| ==> players[i].client != client
  {
    assert forall i :: 0 <= i < |players| ==> (Fits(players[i], ByClient(client)) <==> players[i].client == client);
    Find(players, ByClient(client))
  }

  predicate HasClient(g: Game, client: ClientId) {
    IndexOf(g.players, client).Some?
  }

  /** `get_player`. */
  function PlayerOf(g: Game, client: ClientId): (p: Player)
    requires HasClient(g, client)
    ensures p in g.players && p.client == client
  {
    g.players[IndexOf(g.players, client).value]
  }

  function WithPlayer(g: Game, client: ClientId, p: Player): Game
    requires HasClient(g, client)
  {
    g.(players := g.players[IndexOf(g.players, client).value := p])
  }

  function WorldOf(worlds: seq<World>, id: byte): (r: Option<World>)
    ensures r.Some? ==> r.value in worlds && r.value.id == id
  {
    if worlds == [] then None
    else if worlds[0].id == id then Some(worlds[0])
    else WorldOf(worlds[1..], id)
  }

  // ---- slots ----

  predicate Used(players: seq<Player>, bind: int) {
    exists i :: 0 <= i < |players| && players[i].bind == bind
  }

  ghost predicate DistinctClients(players: seq<Player>) {
    forall i, j :: 0 <= i < j < |players| ==> players[i].client != players[j].client
  }

  ghost predicate DistinctBinds(players: seq<Player>) {
    forall i, j :: 0 <= i < j < |players| ==> players[i].bind != players[j].bind
  }

  ghost predicate BindsInRange(players: seq<Player>) {
    forall i :: 0 <= i < |players| ==> MIN_PLAYER_ID <= players[i].bind <= MAX_PLAYER_ID
  }

  /** The least free slot at or above `from`. */
  function FreeSlot(players: seq<Player>, from: byte): (r: Option<byte>)
    requires from <= MAX_PLAYER_ID + 1
    ensures r.Some? ==> from <= r.value <= MAX_PLAYER_ID && !Used(players, r.value)
    ensures r.Some? ==> forall b :: from <= b < r.value ==> Used(players, b)
    ensures r.None? ==> forall b :: from <= b <= MAX_PLAYER_ID ==> Used(players, b)
    decreases MAX_PLAYER_ID + 1 - from
  {
    if from > MAX_PLAYER_ID then None
    else if !Used(players, from) then Some(from)
    else FreeSlot(players, from + 1)
  }

  /** No slot is free exactly when all 30 are taken. */
  lemma FullGame(players: seq<Player>)
    requires DistinctBinds(players) && BindsInRange(players)
    ensures |players| <= 30
    ensures FreeSlot(players, MIN_PLAYER_ID).None? <==> |players| == 30
  {
    var binds := Binds(players);
    Pigeonhole(binds, 30);
    BindsAreUsed(players);
    match FreeSlot(players, MIN_PLAYER_ID)
    case None =>
      forall b | 1 <= b <= 30 ensures b in binds {
        assert Used(players, b);
      }
      AllUsed(binds, 30);
    case Some(free) =>
      Skipping(binds, 30, free);
  }

  function Binds(players: seq<Player>): (bs: seq<int>)
    ensures |bs| == |players| && forall i :: 0 <= i < |bs| ==> bs[i] == players[i].bind
  {
    seq(|players|, i requires 0 <= i < |players| => players[i].bind as int)
  }

  lemma BindsAreUsed(players: seq<Player>)
    ensures forall b :: b in Binds(players) <==> Used(players, b)
  {
    var binds := Binds(players);
    forall b | Used(players, b) ensures b in binds {
      var i :| 0 <= i < |players| && players[i].bind == b;
      assert binds[i] == b;
    }
  }

  /** A sequence that names all of 1..max is at least that long. */
  lemma {:induction false} AllUsed(xs: seq<int>, max: nat)
    requires forall b :: 1 <= b <= max ==> b in xs
    ensures |xs| >= max
  {
    if max > 0 {
      assert max in xs;
      var k :| 0 <= k < |xs| && xs[k] == max;
      var rest := xs[..k] + xs[k + 1..];
      forall b | 1 <= b <= max - 1 ensures b in rest {
        assert b in xs;
        var i :| 0 <= i < |xs| && xs[i] == b;
        assert rest[if i < k then i else i - 1] == b;
      }
      AllUsed(rest, max - 1);
    }
  }

  /** Different numbers in 1..max that leave out one of these are fewer than max. */
  lemma Skipping(xs: seq<int>, max: nat, free: int)
    requires forall x :: x in xs ==> 1 <= x <= max
    requires forall i, j :: 0 <= i < j < |xs| ==> xs[i] != xs[j]
    requires 1 <= free <= max && free !in xs
    ensures |xs| < max
  {
    Pigeonhole(xs + [free], max);
  }

  function SortedIds(players: seq<Player>): seq<int> {
    SortByKey(Binds(players), (b: int) => b)
  }

  /** `get_uniq_player_id`: sorts the slots in use and scans for the first gap. */
  method GetUniqPlayerId(players: seq<Player>) returns (slot: Option<byte>)
    requires DistinctBinds(players) && BindsInRange(players)
    ensures slot == FreeSlot(players, MIN_PLAYER_ID)
  {
    SortedBinds(players);
    var ids := SortedIds(players);
    slot := ScanForGap(ids);
    if slot.Some? {
      LeastUnused(players, MIN_PLAYER_ID, slot.value);
    } else {
      assert forall b :: MIN_PLAYER_ID as int <= b <= MAX_PLAYER_ID as int ==> Used(players, b);
    }
  }

  method ScanForGap(ids: seq<int>) returns (gap: Option<byte>)
    requires forall i, j :: 0 <= i < j < |ids| ==> ids[i] < ids[j]
    requires forall j :: 0 <= j < |ids| ==> 1 <= ids[j]
    ensures gap.Some? ==> MIN_PLAYER_ID <= gap.value <= MAX_PLAYER_ID && gap.value !in ids
    ensures gap.Some? ==> forall b :: 1 <= b < gap.value as int ==> b in ids
    ensures gap.None? ==> forall b :: 1 <= b <= MAX_PLAYER_ID as int ==> b in ids
  {
    var next := 0;
    for i := MIN_PLAYER_ID as int to MAX_PLAYER_ID as int + 1
      invariant next == i - 1 <= |ids|
      invariant forall j :: 0 <= j < next ==> ids[j] == j + 1
      invariant forall b :: 1 <= b < i ==> b in ids
    {
      if next < |ids| && ids[next] == i {
        next := next + 1;
      } else {
        FirstGap(ids, next);
        return Some(i);
      }
    }
    return None;
  }

  lemma {:induction false} LeastUnused(players: seq<Player>, from: byte, slot: byte)
    requires from <= slot <= MAX_PLAYER_ID && !Used(players, slot)
    requires forall b :: from as int <= b < slot as int ==> Used(players, b)
    ensures FreeSlot(players, from) == Some(slot)
    decreases slot - from
  {
    if from < slot {
      LeastUnused(players, from + 1, slot);
    }
  }

  lemma SortedBinds(players: seq<Player>)
    requires DistinctBinds(players) && BindsInRange(players)
    ensures var ids := SortedIds(players);
            && (forall i, j :: 0 <= i < j < |ids| ==> ids[i] < ids[j])
            && (forall b :: b in ids <==> Used(players, b))
            && (forall j :: 0 <= j < |ids| ==> 1 <= ids[j])
  {
    var ids := SortedIds(players);
    SortByKeyAscends(Binds(players), (b: int) => b);
    BindsAreUsed(players);
    forall j | 0 <= j < |ids| ensures 1 <= ids[j] {
      assert ids[j] in ids;
      assert Used(players, ids[j]);
    }
  }

  lemma FirstGap(ids: seq<int>, next: nat)
    requires forall i, j :: 0 <= i < j < |ids| ==> ids[i] < ids[j]
    requires next <= |ids| && forall j :: 0 <= j < next ==> ids[j] == j + 1
    requires forall j :: 0 <= j < |ids| ==> 1 <= ids[j]
    requires next < |ids| ==> ids[next] != next + 1
    ensures next + 1 !in ids
  {
    forall j | 0 <= j < |ids| ensures ids[j] != next + 1 {
      if j >= next {
        assert next > 0 ==> ids[next - 1] < ids[next];
        assert ids[next] <= ids[j];
      }
    }
  }

  /** `attach_player`: takes a free slot, and forgets a removed player of that slot. */
  function AttachPlayer(g: Game, client: ClientId): (r: Option<Game>) {
    match FreeSlot(g.players, MIN_PLAYER_ID)
    case None => None
    case Some(slot) =>
      Some(g.(removed := Filter(g.removed, (r: RemovedPlayer) => r.bind != slot),
              players := g.players + [NewPlayer(client, slot)]))
  }

  /** `place_player`. */
  function Placed(p: Player, world: byte): Player {
    p.(world := Some(world), status := GAMING)
  }

  /** `RemovedPlayer::from_player`. */
  function FromPlayer(p: Player): Option<RemovedPlayer> {
    if p.name.None? || p.body.None? then None
    else
      var world := if p.world.Some? then p.world.value else 0;
      Some(RemovedPlayer(p.bind, p.status, world, p.x, p.y, p.name.value, p.body.value))
  }
}
