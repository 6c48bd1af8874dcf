/** The server object: it handles one message at a time, updating its games in place and submitting
    packets as it goes. Each method does what its function in `Servers` says. */
module MainLoop {
  import opened Wrappers
  import opened Bytes
  import opened Seqs
  import opened Vanjects
  import opened Messages
  import opened Games
  import opened Handlers
  import Steps
  import Snapshots
  import opened Servers

  class Server {
    var games: map<u32, Game>
    var lastId: u32
    var clients: seq<ClientId>
    var sent: seq<Sent>

    ghost function Now(): State
      reads this
    {
      State(games, lastId, clients, sent)
    }

    ghost predicate Valid()
      reads this
    {
      StateOk(Now())
    }

    constructor ()
      ensures Valid() && Now() == State(map[], 0, [], [])
    {
      games, lastId, clients, sent := map[], 0, [], [];
    }

    /** The game a connection plays in; `Games` is a hash map, walked in some order. */
    method FindGame(client: ClientId) returns (found: Option<u32>)
      requires Valid()
      ensures found == GameOf(games, client)
    {
      var order := Walk(games.Keys);
      for i := 0 to |order|
        invariant forall j :: 0 <= j < i ==> !Plays(games, order[j], client)
      {
        assert order[i] in order;
        if HasClient(games[order[i]], client) {
          OneGame(games, order[i], client);
          return Some(order[i]);
        }
      }
      forall id ensures !Plays(games, id, client) {
        assert id in games ==> id in order;
      }
      return None;
    }

    /** The `notify` family: to each connection, in turn, that is among the recipients. */
    method Notify(to: set<ClientId>, message: Message, realtime: bool)
      modifies `sent
      ensures sent == old(sent) + SendTo(clients, Notice(to, message), realtime)
    {
      ghost var n := Notice(to, message);
      for i := 0 to |clients|
        invariant sent == old(sent) + SendTo(clients[..i], n, realtime)
      {
        assert clients[..i + 1][..i] == clients[..i];
        if clients[i] in to {
          sent := sent + [Sent(clients[i], message, realtime)];
        }
      }
      assert clients[..|clients|] == clients;
    }

    // ---- recipients ----

    /** `client_ids_in_world`, without the sender. */
    method ClientsInWorld(g: Game, world: int, sender: ClientId) returns (ids: set<ClientId>)
      ensures ids == InWorld(g, world, sender)
    {
      ids := {};
      for i := 0 to |g.players|
        invariant forall c :: c in ids <==>
                    exists k :: 0 <= k < i && g.players[k].client == c && c != sender && g.players[k].world.Some?
                                && g.players[k].world.value as int == world
      {
        var p := g.players[i];
        if p.world.Some? && p.world.value as int == world && p.client != sender {
          ids := ids + {p.client};
        }
      }
      forall c | c in InWorld(g, world, sender) ensures c in ids {
        var p :| p in g.players && p.world.Some? && p.world.value as int == world
                 && p.client != sender && p.client == c;
        var k :| 0 <= k < |g.players| && g.players[k] == p;
      }
    }

    method OtherClients(g: Game, sender: ClientId) returns (ids: set<ClientId>)
      ensures ids == Others(g, sender)
    {
      ids := {};
      for i := 0 to |g.players|
        invariant forall c :: c in ids <==> exists k :: 0 <= k < i && g.players[k].client == c && c != sender
      {
        if g.players[i].client != sender {
          ids := ids + {g.players[i].client};
        }
      }
      forall c | c in Others(g, sender) ensures c in ids {
        var p :| p in g.players && p.client != sender && p.client == c;
        var k :| 0 <= k < |g.players| && g.players[k] == p;
      }
    }

    /** `notify_world` for objects of a world, `notify_game` for global ones. */
    method NotifyAbout(g: Game, id: Id, sender: ClientId, message: Message, realtime: bool)
      modifies `sent
      ensures sent == old(sent) + SendTo(clients, Notice(Audience(g, id, sender), message), realtime)
    {
      var to: set<ClientId>;
      if id.kind != GLOBAL {
        to := ClientsInWorld(g, id.world, sender);
      } else {
        to := OtherClients(g, sender);
      }
      Notify(to, message, realtime);
    }

    // ---- objects ----

    /** A second creation of an object tells its sender what is stored. */
    method ReplayStored(client: ClientId, v: Vanject)
      modifies `sent
      ensures sent == old(sent) + SendAll(clients, StoredAgain(v, client), false)
    {
      Notify({client}, Announce(v), false);
      SendAllOne(clients, Notice({client}, Announce(v)), false);
      if v.id.kind == VANGER {
        Notify({client}, PlayersPosition(v.owner, v.x, v.y), false);
        SendAllSnoc(clients, [Notice({client}, Announce(v))],
                    Notice({client}, PlayersPosition(v.owner, v.x, v.y)), false);
      } else {
        assert StoredAgain(v, client) == [Notice({client}, Announce(v))];
      }
    }

    method AddObject(id: u32, client: ClientId, parsed: Vanject)
      requires Plays(games, id, client) && parsed.id !in games[id].vanjects
      requires !(IsItem(parsed.id) && PairedIn(parsed, games[id].vanjects).Some?)
      modifies `games, `sent
      ensures Now() == Settle(old(Now()), id, Handlers.CreateObject(old(games)[id], client, parsed), false)
    {
      var g := games[id];
      var p := PlayerOf(g, client);
      var v := parsed.(owner := p.bind);
      SendAllOne(clients, Notice(Audience(g, v.id, client), Announce(v)), false);
      if v.id.kind == VANGER {
        p := p.(x := v.x, y := v.y, body := BodyOf(v.body));
        AudienceKept(g, client, p, v.id);
        g := WithPlayer(g, client, p);
        if p.body.Some? {
          NotifyAbout(g, v.id, client, Announce(v), false);
        }
      } else {
        NotifyAbout(g, v.id, client, Announce(v), false);
      }
      g := g.(vanjects := g.vanjects[v.id := v]);
      games := games[id := g];
    }

    method CreateInGame(id: u32, client: ClientId, v: Vanject) returns (outcome: Outcome)
      requires Plays(games, id, client)
      modifies `games, `sent
      ensures var r := Handlers.CreateObject(old(games)[id], client, v);
              Now() == Settle(old(Now()), id, r, false) && outcome == r.outcome
    {
      if v.id in games[id].vanjects {
        ReplayStored(client, games[id].vanjects[v.id]);
        assert games[id := games[id]] == games;
        return Done;
      }
      if IsItem(v.id) {
        var paired := PairedIn(v, games[id].vanjects);
        if paired.Some? {
          SettleNothing(Now(), id, PairedItemAlreadyExists(v.id, paired.value), false);
          return Failed(PairedItemAlreadyExists(v.id, paired.value));
        }
      }
      AddObject(id, client, v);
      return Done;
    }

    method CreateObject(client: ClientId, data: seq<byte>) returns (outcome: Outcome)
      requires Valid()
      modifies `games, `sent
      ensures Valid()
      ensures (Now(), outcome) == Creating(old(Now()), client, data)
    {
      CreatingKeepsOrder(Now(), client, data);
      var parsed := CreateFromSlice(data);
      if parsed.Err? {
        return Failed(VanjectParse(parsed.error));
      }
      var found := FindGame(client);
      if found.None? {
        return Failed(PlayerNotFound);
      }
      outcome := CreateInGame(found.value, client, parsed.value);
    }
  
    method UpdateInGame(id: u32, client: ClientId, data: seq<byte>) returns (outcome: Outcome)
      requires Plays(games, id, client) && |data| >= 4
      modifies `games, `sent
      ensures var r := Handlers.UpdateObject(old(games)[id], client, data);
              Now() == Settle(old(Now()), id, r, IsRealtime(FromRaw(FromLe32(data)))) && outcome == r.outcome
    {
      var g := games[id];
      var p, key := PlayerOf(g, client), FromRaw(FromLe32(data));
      var realtime := IsRealtime(key);
      if key !in g.vanjects {
        SettleNothing(Now(), id, VanjectNotFound(key), realtime);
        return Failed(VanjectNotFound(key));
      }
      var v := g.vanjects[key];
      var refused := Refuses(v, key, p);
      assert refused == UpdateRefused(v, key, p);
      if refused.Some? {
        SettleNothing(Now(), id, refused.value, realtime);
        return Failed(refused.value);
      }
      var updated := UpdateFromSlice(v, data);
      if updated.Err? {
        SettleNothing(Now(), id, VanjectParse(updated.error), realtime);
        return Failed(VanjectParse(updated.error));
      }
      v := updated.value.(owner := p.bind);
      games := games[id := g.(vanjects := g.vanjects[key := v])];
      SendAllOne(clients, Notice(Audience(g, v.id, client), Announce(v)), realtime);
      NotifyAbout(games[id], v.id, client, Announce(v), realtime);
      return Done;
    }

    /** The world and owner guards of UPDATE_OBJECT. A player outside of all worlds may touch global
        objects only; one in another world is told so before it is told about the owner. */
    method Refuses(v: Vanject, key: Id, p: Player) returns (e: Option<Error>)
      ensures e == Some(PlayerWorldEmpty) <==> v.id.kind != GLOBAL && p.world.None?
      ensures (e.Some? && e.value.WrongWorld?) <==>
                v.id.kind != GLOBAL && p.world.Some? && p.world.value as int != v.id.world as int
      ensures (e.Some? && e.value.NotOwner?) <==>
                v.id.kind != GLOBAL && !v.id.isStatic && p.world == Some(v.id.world as byte) && v.owner != p.bind
      ensures e.Some? ==> e.value.PlayerWorldEmpty? || e.value == NotOwner(key)
                          || (p.world.Some? && e.value == WrongWorld(key, v.id.world, p.world.value))
    {
      if v.id.kind != GLOBAL {
        if p.world.None? {
          return Some(PlayerWorldEmpty);
        }
        if p.world.value as int != v.id.world as int {
          return Some(WrongWorld(key, v.id.world, p.world.value));
        }
        if !v.id.isStatic && v.owner != p.bind {
          return Some(NotOwner(key));
        }
      }
      return None;
    }

    method UpdateObject(client: ClientId, data: seq<byte>) returns (outcome: Outcome)
      requires Valid()
      modifies `games, `sent
      ensures Valid()
      ensures (Now(), outcome) == Updating(old(Now()), client, data)
    {
      UpdatingKeepsOrder(Now(), client, data);
      if |data| < 4 {
        return Failed(UpdateTooSmall);
      }
      var found := FindGame(client);
      if found.None? {
        return Failed(PlayerNotFound);
      }
      outcome := UpdateInGame(found.value, client, data);
    }

    method DeleteInGame(id: u32, client: ClientId, key: Id, rest: seq<byte>) returns (outcome: Outcome)
      requires Plays(games, id, client)
      modifies `games, `sent
      ensures var r := Handlers.DeleteObject(old(games)[id], client, key, rest);
              Now() == Settle(old(Now()), id, r, false) && outcome == r.outcome
    {
      var g := games[id];
      var p := PlayerOf(g, client);
      var legacy := |rest| > 4 && rest[4] == 1;
      var answer := ObjectDelete(key, p.bind, rest);
      if key in g.vanjects {
        var v := g.vanjects[key];
        if v.owner != p.bind {
          SettleNothing(Now(), id, NotOwner(key), false);
          return Failed(NotOwner(key));
        }
        if IsItem(v.id) && legacy {
          SettleNothing(Now(), id, LegacyItemTransferDelete(key), false);
          return Failed(LegacyItemTransferDelete(key));
        }
        if IsItem(v.id) {
          var linked := LinkedId(v);
          answer := ItemRemoved(v.id, if linked.Some? then linked.value else NO_ID, ITEM_REMOVED_REASON_DELETE);
        }
      }
      SendAllOne(clients, Notice(Audience(g, key, client), answer), false);
      g := g.(vanjects := g.vanjects - {key});
      assert key !in old(games)[id].vanjects ==> g.vanjects == old(games)[id].vanjects;
      games := games[id := g];
      NotifyAbout(g, key, client, answer, false);
      return Done;
    }

    method DeleteObject(client: ClientId, data: seq<byte>) returns (outcome: Outcome)
      requires Valid() && DeletionFits(Now(), client, data)
      modifies `games, `sent
      ensures Valid()
      ensures (Now(), outcome) == Deleting(old(Now()), client, data)
    {
      DeletingKeepsOrder(Now(), client, data);
      var found := FindGame(client);
      if found.None? {
        return Failed(PlayerNotFound);
      }
      outcome := DeleteInGame(found.value, client, FromRaw(FromLe32(data)), data[4..]);
    }

    method TransferInGame(id: u32, client: ClientId, t: Transfer) returns (outcome: Outcome)
      requires Plays(games, id, client) && ValidateTransfer(t).None?
      modifies `games, `sent
      ensures var r := Handlers.ItemTransfer(old(games)[id], client, t);
              Now() == Settle(old(Now()), id, r, false) && outcome == r.outcome
    {
      var g := games[id];
      var p := PlayerOf(g, client);
      var refused := RefusesTransfer(g, p, t);
      assert refused == TransferRefused(g, p, t);
      if refused.Some? {
        SettleNothing(Now(), id, refused.value, false);
        return Failed(refused.value);
      }
      var v := t.v.(owner := p.bind);
      var applied := ItemState(t.oldId, AsSent(v));
      g := g.(vanjects := g.vanjects - {t.oldId});
      g := g.(vanjects := g.vanjects[v.id := v]);
      games := games[id := g];
      SendAllOne(clients, Notice(InWorld(g, v.id.world, client), applied), false);
      NotifyAbout(g, v.id, client, applied, false);
      return Done;
    }

    /** The guards of ITEM_TRANSFER that look at the game: whoever is in no world learns only that; then
        the two forms must be one stored and one not; then both must be where the player is; only then
        does it matter whose the item is, and only to drop it. */
    method RefusesTransfer(g: Game, p: Player, t: Transfer) returns (e: Option<Error>)
      ensures e == Some(PlayerWorldEmpty) <==> p.world.None?
      ensures e == Some(NewItemAlreadyExists(t.v.id)) <==> p.world.Some? && t.v.id in g.vanjects
      ensures e == Some(OldItemNotFound(t.oldId)) <==>
                p.world.Some? && t.v.id !in g.vanjects && t.oldId !in g.vanjects
      ensures (e.Some? && e.value.WrongWorld?) <==>
                && p.world.Some? && t.v.id !in g.vanjects && t.oldId in g.vanjects
                && (g.vanjects[t.oldId].id.world as int != p.world.value as int
                    || t.v.id.world as int != p.world.value as int)
      ensures e.Some? && e.value.WrongWorld? ==>
                if g.vanjects[t.oldId].id.world as int != p.world.value as int
                then e.value == WrongWorld(t.oldId, g.vanjects[t.oldId].id.world, p.world.value)
                else e.value == WrongWorld(t.v.id, t.v.id.world, p.world.value)
      ensures e == Some(NotOwner(t.oldId)) <==>
                && t.v.id !in g.vanjects && t.oldId in g.vanjects
                && t.kind == DROP && g.vanjects[t.oldId].owner != p.bind
                && p.world == Some(g.vanjects[t.oldId].id.world as byte) && p.world == Some(t.v.id.world as byte)
      ensures e.Some? ==> e.value.PlayerWorldEmpty? || e.value.WrongWorld?
                          || e.value in {NewItemAlreadyExists(t.v.id), OldItemNotFound(t.oldId), NotOwner(t.oldId)}
    {
      if p.world.None? {
        return Some(PlayerWorldEmpty);
      }
      if t.v.id in g.vanjects {
        return Some(NewItemAlreadyExists(t.v.id));
      }
      if t.oldId !in g.vanjects {
        return Some(OldItemNotFound(t.oldId));
      }
      var item := g.vanjects[t.oldId];
      if item.id.world as int != p.world.value as int {
        return Some(WrongWorld(t.oldId, item.id.world, p.world.value));
      }
      if t.v.id.world as int != p.world.value as int {
        return Some(WrongWorld(t.v.id, t.v.id.world, p.world.value));
      }
      if t.kind == DROP && item.owner != p.bind {
        return Some(NotOwner(t.oldId));
      }
      return None;
    }

    method ItemTransfer(client: ClientId, data: seq<byte>) returns (outcome: Outcome)
      requires Valid()
      modifies `games, `sent
      ensures Valid()
      ensures (Now(), outcome) == Transferring(old(Now()), client, data)
    {
      TransferringKeepsOrder(Now(), client, data);
      var checked := CheckTransfer(data);
      if checked.Err? {
        return Failed(checked.error);
      }
      var found := FindGame(client);
      if found.None? {
        return Failed(PlayerNotFound);
      }
      outcome := TransferInGame(found.value, client, checked.value);
    }
  
    // ---- worlds ----

    /** Submits a list of notices one by one. */
    method NotifyEach(ns: seq<Notice>)
      modifies `sent
      ensures sent == old(sent) + SendAll(clients, ns, false)
    {
      for i := 0 to |ns|
        invariant sent == old(sent) + SendAll(clients, ns[..i], false)
      {
        assert ns[..i + 1][..i] == ns[..i];
        Notify(ns[i].to, ns[i].message, false);
        assert ns[i] == Notice(ns[i].to, ns[i].message);
      }
      assert ns[..|ns|] == ns;
    }

    /** The packets for the objects that go, by id, from a walk of the table. */
    method CollectDeletions(g: Game, bind: byte) returns (delete: map<Id, Message>)
      ensures delete.Keys == Doomed(g, bind)
      ensures forall id :: id in delete ==> delete[id] == ObjectDelete(id, bind, ToLe32(g.vanjects[id].time))
    {
      var walk := Walk(g.vanjects.Keys);
      delete := map[];
      for i := 0 to |walk|
        invariant forall id :: id in delete <==> id in walk[..i] && ShouldDeleteOnLeaveWorld(g.vanjects[id], bind)
        invariant forall id :: id in delete ==> delete[id] == ObjectDelete(id, bind, ToLe32(g.vanjects[id].time))
      {
        var id := walk[i];
        assert id in walk && walk[..i + 1] == walk[..i] + [id];
        if ShouldDeleteOnLeaveWorld(g.vanjects[id], bind) {
          delete := delete[id := ObjectDelete(id, bind, ToLe32(g.vanjects[id].time))];
        }
      }
      assert walk[..|walk|] == walk;
    }

    /** `retain` on the table. */
    method Retain(t: map<Id, Vanject>, gone: set<Id>) returns (kept: map<Id, Vanject>)
      ensures kept == t - gone
    {
      var walk := Walk(t.Keys);
      kept := map[];
      for i := 0 to |walk|
        invariant forall id :: id in kept <==> id in walk[..i] && id !in gone
        invariant forall id :: id in kept ==> id in t && kept[id] == t[id]
      {
        var id := walk[i];
        assert id in walk && walk[..i + 1] == walk[..i] + [id];
        if id !in gone {
          kept := kept[id := t[id]];
        }
      }
      assert walk[..|walk|] == walk;
    }

    method NotifyDeletions(to: set<ClientId>, delete: map<Id, Message>, order: seq<Id>, ghost ns: seq<Notice>)
      requires |ns| == |order|
      requires forall i :: 0 <= i < |order| ==> order[i] in delete && ns[i] == Notice(to, delete[order[i]])
      modifies `sent
      ensures sent == old(sent) + SendAll(clients, ns, false)
    {
      for i := 0 to |order|
        invariant sent == old(sent) + SendAll(clients, ns[..i], false)
      {
        assert ns[..i + 1][..i] == ns[..i];
        Notify(to, delete[order[i]], false);
      }
      assert ns[..|order|] == ns;
    }

    method LeaveInGame(id: u32, client: ClientId) returns (outcome: Outcome, ghost order: seq<Id>)
      requires Plays(games, id, client)
      modifies `games, `sent
      ensures var g := old(games)[id];
              && (PlayerOf(g, client).world.Some? ==> Lists(order, Doomed(g, PlayerOf(g, client).bind)))
              && var r := Handlers.LeaveWorld(g, client, order);
                 Now() == Settle(old(Now()), id, r, false) && outcome == r.outcome
    {
      var g := games[id];
      var p := PlayerOf(g, client);
      if p.world.None? {
        SettleNothing(Now(), id, PlayerWorldEmpty, false);
        order := [];
        return Failed(PlayerWorldEmpty), order;
      }
      g := WithPlayer(g, client, p.(world := None));
      var delete := CollectDeletions(g, p.bind);
      var kept := Retain(g.vanjects, delete.Keys);
      games := games[id := g.(vanjects := kept)];
      var walk := Walk(delete.Keys);
      order := walk;
      SendDeparture(games[id], client, p.bind, delete, walk, old(games)[id]);
      return Done, order;
    }

    /** `before` is the game that was left. */
    method SendDeparture(g: Game, client: ClientId, bind: byte, delete: map<Id, Message>, walk: seq<Id>,
                         ghost before: Game)
      requires HasClient(before, client) && Left(before, client) == g && PlayerOf(before, client).bind == bind
      requires PlayerOf(before, client).world.Some? && Lists(walk, Doomed(before, bind))
      requires delete.Keys == Doomed(before, bind)
      requires forall id :: id in delete ==> delete[id] == ObjectDelete(id, bind, ToLe32(before.vanjects[id].time))
      modifies `sent
      ensures sent == old(sent) + SendAll(clients, Handlers.LeaveWorld(before, client, walk).notices, false)
    {
      var to := OtherClients(g, client);
      OthersAfterLeaving(before, client);
      DoomedInside(before, bind, walk);
      ghost var ns := DeleteNotices(before, bind, to, walk);
      DeleteNoticesAt(before, bind, to, walk);
      SubmittedThen(sent, clients, ns, Notice(to, PlayersWorld(bind, 0)));
      assert forall i :: 0 <= i < |walk| ==> walk[i] in walk;
      NotifyDeletions(to, delete, walk, ns);
      Notify(to, PlayersWorld(bind, 0), false);
    }

    method LeaveWorld(client: ClientId) returns (outcome: Outcome, ghost order: seq<Id>)
      requires Valid()
      modifies `games, `sent
      ensures Valid() && WalksDoomed(old(Now()), client, order)
      ensures (Now(), outcome) == LeavingWorld(old(Now()), client, order)
    {
      var found := FindGame(client);
      if found.None? {
        order := [];
        return Failed(PlayerNotFound), order;
      }
      outcome, order := LeaveInGame(found.value, client);
      MovesKeepOrder(old(Now()), client, 0, 0, order, []);
    }
  
    /** Every packet is made before the first one is sent. */
    method EnterInGame(id: u32, client: ClientId, world: byte, created: byte) returns (ghost walk: seq<Id>)
      requires Plays(games, id, client)
      modifies `games, `sent
      ensures Lists(walk, old(games)[id].vanjects.Keys)
      ensures Now() == Settle(old(Now()), id, Enter(old(games)[id], client, world, created, walk), false)
    {
      var g := games[id];
      var p := PlayerOf(g, client);
      var order := Walk(g.vanjects.Keys);
      walk := order;
      Snapshots.WalkInside(g.vanjects, order);
      var shown := Snapshots.BuildSnapshot(g.vanjects, world, p.bind, order);
      var snapshot := AnnounceAll(shown, {client});
      var placed := WithPlayer(g, client, Placed(p, world));
      var list := Snapshots.BuildTotalPlayersData(placed);
      var starting, greeting := Starting(g, p), Greeting(g, client, world, created, list);
      games := games[id := placed];
      SubmittedInTurn(sent, clients, starting, greeting, snapshot, Notice({client}, SnapshotEnd(world)));
      NotifyEach(starting);
      NotifyEach(greeting);
      NotifyEach(snapshot);
      Notify({client}, SnapshotEnd(world), false);
    }

    method ArriveInGame(id: u32, client: ClientId, world: byte, ySize: u16)
      returns (outcome: Outcome, ghost walk: seq<Id>)
      requires Plays(games, id, client)
      modifies `games, `sent
      ensures Lists(walk, old(games)[id].vanjects.Keys)
      ensures var r := Arrive(old(games)[id], client, world, ySize, walk);
              Now() == Settle(old(Now()), id, r, false) && outcome == r.outcome
    {
      var g := games[id];
      var known := WorldOf(g.worlds, world);
      if known.Some? {
        if known.value.ySize != ySize {
          SettleNothing(Now(), id, InvalidWorldSize(known.value.ySize, ySize), false);
          var order := Walk(g.vanjects.Keys);
          walk := order;
          return Failed(InvalidWorldSize(known.value.ySize, ySize)), walk;
        }
        walk := EnterInGame(id, client, world, 0);
      } else {
        games := games[id := g.(worlds := g.worlds + [World(world, ySize)])];
        walk := EnterInGame(id, client, world, 1);
      }
      return Done, walk;
    }

    method SetWorld(client: ClientId, data: seq<byte>)
      returns (outcome: Outcome, ghost order: seq<Id>, ghost walk: seq<Id>)
      requires Valid() && |data| >= 3
      modifies `games, `sent
      ensures Valid() && WalksEntry(old(Now()), client, data[0], order, walk)
      ensures (Now(), outcome) == Entering(old(Now()), client, data[0], FromLe16(data[1..]), order, walk)
    {
      var world, ySize := data[0], FromLe16(data[1..]);
      order, walk := [], [];
      var found := FindGame(client);
      if found.None? {
        return Failed(PlayerNotFound), order, walk;
      }
      var id := found.value;
      ghost var g := games[id];
      if Switches(games[id], client, world) {
        var left;
        left, order := LeaveInGame(id, client);
        WithPlayerHas(g, client, PlayerOf(g, client).(world := None));
      }
      assert games[id] == AfterSwitch(g, client, world);
      outcome, walk := ArriveInGame(id, client, world, ySize);
      SettleTwice(old(Now()), id, client, world, ySize, order, walk);
      MovesKeepOrder(old(Now()), client, world, ySize, order, walk);
    }

    // ---- connections that come and go ----

    /** The status change of a player that goes while it plays. */
    method Farewell(g: Game, client: ClientId)
      requires HasClient(g, client)
      modifies `sent
      ensures sent == old(sent) + SendAll(clients, FinishNotices(g, client), false)
    {
      var p := PlayerOf(g, client);
      if p.status == GAMING {
        SendAllOne(clients, Notice(Others(g, client), PlayersStatus(p.bind, StatusCode(FINISHED))), false);
        Notify(Others(g, client), PlayersStatus(p.bind, StatusCode(FINISHED)), false);
      }
    }

    method FinishInGame(id: u32, client: ClientId)
      requires Plays(games, id, client)
      modifies `games, `sent
      ensures Now() == Finishing(old(Now()), id, client)
    {
      var g := games[id];
      Farewell(g, client);
      var p := PlayerOf(g, client).(world := None);
      if p.status == GAMING {
        p := p.(status := FINISHED);
      }
      var snapshot := FromPlayer(p);
      if snapshot.Some? {
        var removed := Filter(g.removed, (o: RemovedPlayer) => o.bind != snapshot.value.bind);
        g := g.(removed := removed + [snapshot.value]);
      }
      g := g.(players := Filter(g.players, (o: Player) => o.client != client));
      games := if g.players == [] then games - {id} else games[id := g];
    }

    method CloseSocket(client: ClientId) returns (outcome: Outcome, ghost order: seq<Id>)
      requires Valid()
      modifies `games, `sent
      ensures Valid() && WalksDoomed(old(Now()), client, order)
      ensures (Now(), outcome) == Closing(old(Now()), client, order)
    {
      var left;
      left, order := LeaveWorld(client);
      if left == Failed(PlayerNotFound) {
        return left, order;
      }
      ghost var was := GameOf(old(games), client);
      LeavingThenFinishing(old(Now()), was.value, client, order);
      OneGame(games, was.value, client);
      var found := FindGame(client);
      FinishInGame(found.value, client);
      MovesKeepOrder(old(Now()), client, 0, 0, order, []);
      return Done, order;
    }

    method AttachInGame(id: u32, client: ClientId, birth: u32, unix: u32)
      returns (outcome: Outcome, ghost walk: seq<Id>)
      requires id in games && Steps.PlayersOk(games[id].players) && OffsetsInBounds(games[id])
      modifies `games, `sent
      ensures Lists(walk, old(games)[id].vanjects.Keys)
      ensures var r := Attach(old(games)[id], client, birth, unix, walk);
              Now() == Settle(old(Now()), id, r, false) && outcome == r.outcome
    {
      var g := games[id];
      var order := Walk(g.vanjects.Keys);
      walk := order;
      Snapshots.WalkInside(g.vanjects, order);
      var slot := GetUniqPlayerId(g.players);
      if slot.None? {
        SettleNothing(Now(), id, GameFull, false);
        return Failed(GameFull), walk;
      }
      var offsets := Snapshots.BuildOffsets(order, slot.value);
      var globals := AnnounceGlobals(Globals(g.vanjects, order), {client});
      var answer := Notice({client}, AttachResponse(g.id, g.configured, birth, slot.value, offsets));
      g := g.(removed := Filter(g.removed, (r: RemovedPlayer) => r.bind != slot.value));
      g := g.(players := g.players + [NewPlayer(client, slot.value)]);
      games := games[id := g];
      SubmittedBoth(sent, clients, [answer, Notice({client}, ZTime(unix))], globals);
      NotifyEach([answer, Notice({client}, ZTime(unix))]);
      NotifyEach(globals);
      return Done, walk;
    }

    /** Game id 0 makes a new game. */
    method AttachToGame(client: ClientId, data: seq<byte>, birth: u32, unix: u32)
      returns (outcome: Outcome, ghost walk: seq<Id>)
      requires Valid() && GameOf(games, client).None? && OffsetsFit(Now(), data)
      modifies `games, `lastId, `sent
      ensures Valid() && WalksForOffsets(old(Now()), data, walk)
      ensures (Now(), outcome) == Attaching(old(Now()), client, data, birth, unix, walk)
    {
      walk := [];
      if |data| != 4 {
        return Failed(PayloadInvalid), walk;
      }
      var id := FromLe32(data);
      if id == 0 {
        lastId := NextId(lastId);
        id := lastId;
        if id !in games {
          games := games[id := NewGame(id)];
        }
      }
      if id !in games {
        return Failed(GameNotExists), walk;
      }
      outcome, walk := AttachInGame(id, client, birth, unix);
      AttachingKeepsOrder(old(Now()), client, data, birth, unix, walk);
    }

    method RestoreConnection(client: ClientId, data: seq<byte>) returns (outcome: Outcome)
      requires Valid() && GameOf(games, client).None?
      modifies `games, `clients, `sent
      ensures Valid()
      ensures (Now(), outcome) == Restoring(old(Now()), client, data)
    {
      RestoringKeepsOrder(Now(), client, data);
      if |data| != 5 {
        return Failed(PayloadInvalid);
      }
      var id, bind := FromLe32(data), data[4];
      var restored := false;
      if id in games {
        var g := games[id];
        var i := IndexOfBind(g.players, bind);
        if i.Some? {
          var replaced := g.players[i.value].client;
          g := g.(players := g.players[i.value := g.players[i.value].(client := client, deadline := None)]);
          games := games[id := g];
          if replaced != client {
            clients := Without(clients, replaced);
          }
          restored := true;
        }
      }
      Notify({client}, RestoreResponse(restored), false);
      return Done;
    }

    /** The main loop's reaction to a broken connection. */
    method Disconnected(client: ClientId, now: nat)
      requires Valid()
      modifies `games, `clients
      ensures Valid()
      ensures Now() == Disconnecting(old(Now()), client, now)
    {
      DisconnectingKeepsOrder(Now(), client, now);
      var found := FindGame(client);
      if found.Some? {
        games := games[found.value := MarkDisconnected(games[found.value], client, now + DISCONNECTED_PLAYER_TTL)];
      }
      clients := Without(clients, client);
    }

    method Connected(client: ClientId)
      requires Valid() && client !in clients
      modifies `clients
      ensures Valid()
      ensures Now() == old(Now()).(clients := old(clients) + [client])
    {
      clients := clients + [client];
    }

    // ---- expiry ----

    /** The connections of the players whose deadline has come. */
    method CollectDue(now: nat) returns (due: seq<ClientId>)
      requires Valid()
      ensures AreDue(games, due, now)
    {
      due := [];
      var order := Walk(games.Keys);
      for i := 0 to |order|
        invariant forall c :: c in due <==>
                    exists j, p :: 0 <= j < i && InGame(games, order[j], p) && Due(p, now) && p.client == c
      {
        assert order[i] in order;
        var players := games[order[i]].players;
        ghost var before := due;
        for k := 0 to |players|
          invariant forall c :: c in due <==>
                      c in before || exists m :: 0 <= m < k && Due(players[m], now) && players[m].client == c
        {
          if Due(players[k], now) {
            due := due + [players[k].client];
          }
        }
        forall c
          ensures c in due <==>
                    exists j, p :: 0 <= j < i + 1 && InGame(games, order[j], p) && Due(p, now) && p.client == c
        {
          if c in due && c !in before {
            var m :| 0 <= m < |players| && Due(players[m], now) && players[m].client == c;
            assert InGame(games, order[i], players[m]);
          }
        }
      }
      forall c ensures c in due <==> exists id, p :: InGame(games, id, p) && Due(p, now) && p.client == c {
        if id: u32, p :| InGame(games, id, p) && Due(p, now) && p.client == c {
          assert id in order;
          var j :| 0 <= j < |order| && order[j] == id;
          assert InGame(games, order[j], p);
        }
      }
    }

    /** The tick of the main loop: closes exactly the players whose deadline has come. */
    method ExpireDisconnectedPlayers(now: nat) returns (ghost due: seq<ClientId>, ghost orders: seq<seq<Id>>)
      requires Valid()
      modifies `games, `sent
      ensures Valid()
      ensures AreDue(old(games), due, now) && ClosesInTurn(old(Now()), due, orders)
      ensures Now() == CloseAll(old(Now()), due, orders)
      ensures ExpiredAt(old(games), games, now)
    {
      var expired := CollectDue(now);
      due, orders := expired, [];
      for i := 0 to |expired|
        invariant Valid() && |orders| == i
        invariant ClosesInTurn(old(Now()), expired[..i], orders) && Now() == CloseAll(old(Now()), expired[..i], orders)
        invariant forall id, p :: InGame(games, id, p) <==> InGame(old(games), id, p) && p.client !in expired[..i]
      {
        ghost var before := Now();
        var outcome;
        ghost var order;
        outcome, order := CloseSocket(expired[i]);
        ClosingRemoves(before, expired[i], order);
        CloseAllSnoc(old(Now()), expired[..i], orders, expired[i], order);
        assert expired[..i + 1] == expired[..i] + [expired[i]];
        orders := orders + [order];
      }
      assert expired[..|expired|] == expired;
      forall id: u32, p ensures InGame(games, id, p) <==> InGame(old(games), id, p) && !Due(p, now) {
        if InGame(old(games), id, p) && p.client in expired {
          var id': u32, p' :| InGame(old(games), id', p') && Due(p', now) && p'.client == p.client;
          ListedPlays(old(games), id, p);
          ListedPlays(old(games), id', p');
        }
      }
    }
  }
}
