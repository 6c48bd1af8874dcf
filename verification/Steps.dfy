/** A game as a state machine, and what every run of it keeps about its players and its table. */
module Steps {
  import opened Wrappers
  import opened Bytes
  import opened Seqs
  import opened Vanjects
  import opened Games
  import opened Handlers

  /** What can happen to a game. `Profile` stands for REGISTER_NAME, SET_PLAYER_DATA and
      SET_POSITION, `Configure` for SET_GAME_DATA. */
  datatype Event =
    | Create(client: ClientId, v: Vanject)
    | Update(client: ClientId, data: seq<byte>)
    | Delete(client: ClientId, id: Id, rest: seq<byte>)
    | TransferItem(client: ClientId, t: Transfer)
    | Leave(client: ClientId, order: seq<Id>)
    | EnterWorld(client: ClientId, world: byte, ySize: u16, order: seq<Id>, walk: seq<Id>)
    | Close(client: ClientId, order: seq<Id>)
    | AttachTo(client: ClientId, birth: u32, unix: u32, walk: seq<Id>)
    | Restore(client: ClientId, bind: byte)
    | Disconnect(client: ClientId, deadline: nat)
    | Profile(client: ClientId, name: Option<seq<byte>>, body: Option<seq<byte>>, x: u16, y: u16)
    | Configure(client: ClientId)

  /** A message of a player of the game; or one of a client without a player, which alone may
      attach or restore. */
  ghost predicate Possible(g: Game, e: Event) {
    if e.AttachTo? || e.Restore? then
      !HasClient(g, e.client) && (e.AttachTo? ==> Lists(e.walk, g.vanjects.Keys) && OffsetsInBounds(g))
    else
      && HasClient(g, e.client)
      && var p := PlayerOf(g, e.client);
         match e
         case Update(_, data) => |data| >= 4
         case TransferItem(_, t) => ValidateTransfer(t).None?
         case Leave(_, order) => p.world.Some? ==> Lists(order, Doomed(g, p.bind))
         case EnterWorld(_, world, _, order, walk) =>
           && Lists(order, if Switches(g, e.client, world) then Doomed(g, p.bind) else {})
           && Lists(walk, AfterSwitch(g, e.client, world).vanjects.Keys)
         case Close(_, order) => p.world.Some? ==> Lists(order, Doomed(g, p.bind))
         case _ => true
  }

  ghost function Step(g: Game, e: Event): Reply
    requires Possible(g, e)
  {
    match e
    case Create(c, v) => CreateObject(g, c, v)
    case Update(c, data) => UpdateObject(g, c, data)
    case Delete(c, id, rest) => DeleteObject(g, c, id, rest)
    case TransferItem(c, t) => ItemTransfer(g, c, t)
    case Leave(c, order) => LeaveWorld(g, c, order)
    case EnterWorld(c, world, ySize, order, walk) => SetWorld(g, c, world, ySize, order, walk)
    case Close(c, order) => CloseSocket(g, c, order)
    case AttachTo(c, birth, unix, walk) => Attach(g, c, birth, unix, walk)
    case Restore(c, bind) => Reply(RestoreConnection(g, c, bind), [], Done)
    case Disconnect(c, deadline) => Reply(MarkDisconnected(g, c, deadline), [], Done)
    case Profile(c, name, body, x, y) =>
      Reply(WithPlayer(g, c, PlayerOf(g, c).(name := name, body := body, x := x, y := y)), [], Done)
    case Configure(c) => Reply(g.(configured := true), [], Done)
  }

  ghost function After(g: Game, e: Event): Game
    requires Possible(g, e)
  {
    Step(g, e).game
  }

  ghost predicate IsRun(g: Game, es: seq<Event>)
    decreases es
  {
    es == [] || (Possible(g, es[0]) && IsRun(After(g, es[0]), es[1..]))
  }

  ghost function Run(g: Game, es: seq<Event>): Game
    requires IsRun(g, es)
    decreases es
  {
    if es == [] then g else Run(After(g, es[0]), es[1..])
  }

  lemma RunOfOne(g: Game, e: Event)
    requires Possible(g, e)
    ensures IsRun(g, [e]) && Run(g, [e]) == After(g, e)
  {
    assert [e][1..] == [];
    assert IsRun(After(g, e), []) && Run(After(g, e), []) == After(g, e);
  }

  lemma RunFrom(g: Game, e: Event, es: seq<Event>)
    requires Possible(g, e) && IsRun(After(g, e), es)
    ensures IsRun(g, [e] + es) && Run(g, [e] + es) == Run(After(g, e), es)
  {
    assert ([e] + es)[0] == e && ([e] + es)[1..] == es;
  }

  lemma RunOfTwo(g: Game, e: Event, f: Event)
    requires Possible(g, e) && Possible(After(g, e), f)
    ensures IsRun(g, [e, f]) && Run(g, [e, f]) == After(After(g, e), f)
  {
    RunOfOne(After(g, e), f);
    RunFrom(g, e, [f]);
    assert [e, f] == [e] + [f];
  }

  // ---- players and removed players ----

  ghost predicate PlayersOk(players: seq<Player>) {
    DistinctClients(players) && DistinctBinds(players) && BindsInRange(players)
  }

  /** Removed players hold different slots, none of which a live player holds. */
  ghost predicate RemovedOk(removed: seq<RemovedPlayer>, players: seq<Player>) {
    && (forall i, j :: 0 <= i < j < |removed| ==> removed[i].bind != removed[j].bind)
    && (forall i :: 0 <= i < |removed| ==> MIN_PLAYER_ID <= removed[i].bind <= MAX_PLAYER_ID)
    && (forall i, j :: 0 <= i < |removed| && 0 <= j < |players| ==> removed[i].bind != players[j].bind)
  }

  /** Keys are the stored ids, owners are slots. */
  ghost predicate TableOk(vanjects: map<Id, Vanject>) {
    forall id :: id in vanjects ==>
      vanjects[id].id == id && MIN_PLAYER_ID <= vanjects[id].owner <= MAX_PLAYER_ID
  }

  ghost predicate GameOk(g: Game) {
    PlayersOk(g.players) && RemovedOk(g.removed, g.players) && TableOk(g.vanjects)
  }

  lemma PlayersUpdated(g: Game, i: nat, p: Player)
    requires PlayersOk(g.players) && RemovedOk(g.removed, g.players)
    requires i < |g.players| && p.bind == g.players[i].bind
    requires p.client == g.players[i].client || forall j :: 0 <= j < |g.players| ==> g.players[j].client != p.client
    ensures PlayersOk(g.players[i := p]) && RemovedOk(g.removed, g.players[i := p])
  {
  }

  lemma PlayersAppended(g: Game, client: ClientId, slot: byte)
    requires PlayersOk(g.players) && RemovedOk(g.removed, g.players)
    requires MIN_PLAYER_ID <= slot <= MAX_PLAYER_ID && !Used(g.players, slot)
    requires forall j :: 0 <= j < |g.players| ==> g.players[j].client != client
    ensures PlayersOk(g.players + [NewPlayer(client, slot)])
    ensures RemovedOk(Filter(g.removed, (r: RemovedPlayer) => r.bind != slot), g.players + [NewPlayer(client, slot)])
  {
    var players := g.players + [NewPlayer(client, slot)];
    var removed := Filter(g.removed, (r: RemovedPlayer) => r.bind != slot);
    FilterKeepsDistinct(g.removed, (r: RemovedPlayer) => r.bind != slot, (r: RemovedPlayer) => r.bind as int);
    FilterMembers(g.removed, (r: RemovedPlayer) => r.bind != slot);
    forall i | 0 <= i < |removed|
      ensures MIN_PLAYER_ID <= removed[i].bind <= MAX_PLAYER_ID
      ensures forall j :: 0 <= j < |players| ==> removed[i].bind != players[j].bind
    {
      assert removed[i] in removed;
      var k :| 0 <= k < |g.removed| && g.removed[k] == removed[i];
    }
    forall j | 0 <= j < |g.players| ensures g.players[j].bind != slot {
    }
  }

  lemma PlayerDropped(g: Game, client: ClientId)
    requires PlayersOk(g.players) && HasClient(g, client)
    ensures var players := Filter(g.players, (o: Player) => o.client != client);
            && PlayersOk(players)
            && (forall j :: 0 <= j < |players| ==> players[j].bind != PlayerOf(g, client).bind)
            && (forall j :: 0 <= j < |players| ==> exists i :: 0 <= i < |g.players| && players[j] == g.players[i])
  {
    var k := IndexOf(g.players, client).value;
    FilterOne(g.players, (o: Player) => o.client != client, k);
    var players := g.players[..k] + g.players[k + 1..];
    forall j | 0 <= j < |players| ensures exists i :: 0 <= i < |g.players| && players[j] == g.players[i] {
      assert players[j] == g.players[if j < k then j else j + 1];
    }
  }

  /** A slot that no live player holds may join the removed ones, and any live player may go. */
  lemma RemovedJoined(removed: seq<RemovedPlayer>, players: seq<Player>, r: RemovedPlayer)
    requires RemovedOk(removed, players) && MIN_PLAYER_ID <= r.bind <= MAX_PLAYER_ID
    requires forall i :: 0 <= i < |removed| ==> removed[i].bind != r.bind
    requires forall j :: 0 <= j < |players| ==> players[j].bind != r.bind
    ensures RemovedOk(removed + [r], players)
  {
  }

  lemma RemovedShrinks(removed: seq<RemovedPlayer>, players: seq<Player>, fewer: seq<Player>)
    requires RemovedOk(removed, players)
    requires forall j :: 0 <= j < |fewer| ==> exists i :: 0 <= i < |players| && fewer[j] == players[i]
    ensures RemovedOk(removed, fewer)
  {
    forall i, j | 0 <= i < |removed| && 0 <= j < |fewer| ensures removed[i].bind != fewer[j].bind {
      var k :| 0 <= k < |players| && fewer[j] == players[k];
    }
  }

  /** What is removed after a close, if the player is remembered as `r`. */
  lemma ClosedRemovedOk(g: Game, k: nat, players: seq<Player>, r: Option<RemovedPlayer>)
    requires GameOk(g) && k < |g.players|
    requires forall j :: 0 <= j < |players| ==> players[j].bind != g.players[k].bind
    requires RemovedOk(g.removed, players)
    requires r.Some? ==> r.value.bind == g.players[k].bind
    ensures r.Some? ==> RemovedOk(Filter(g.removed, (o: RemovedPlayer) => o.bind != r.value.bind) + [r.value], players)
  {
    if r.Some? {
      assert MIN_PLAYER_ID <= g.players[k].bind <= MAX_PLAYER_ID;
      assert forall i :: 0 <= i < |g.removed| ==> g.removed[i].bind != g.players[k].bind;
      FilterAll(g.removed, (o: RemovedPlayer) => o.bind != r.value.bind);
      RemovedJoined(g.removed, players, r.value);
    }
  }

  lemma CloseOk(g: Game, e: Event)
    requires GameOk(g) && e.Close? && Possible(g, e)
    ensures GameOk(After(g, e))
  {
    var p := PlayerOf(g, e.client);
    var players := Filter(g.players, (o: Player) => o.client != e.client);
    var r := FromPlayer(p.(world := None, status := if p.status == GAMING then FINISHED else p.status));
    PlayerDropped(g, e.client);
    RemovedShrinks(g.removed, g.players, players);
    ClosedRemovedOk(g, IndexOf(g.players, e.client).value, players, r);
    CloseParts(g, e.client, e.order);
  }

  lemma CloseParts(g: Game, client: ClientId, order: seq<Id>)
    requires HasClient(g, client) && DistinctClients(g.players)
    requires PlayerOf(g, client).world.Some? ==> Lists(order, Doomed(g, PlayerOf(g, client).bind))
    ensures var p := PlayerOf(g, client);
            var r := FromPlayer(p.(world := None, status := if p.status == GAMING then FINISHED else p.status));
            var g' := CloseSocket(g, client, order).game;
            && g'.players == Filter(g.players, (o: Player) => o.client != client)
            && (r.None? ==> g'.removed == g.removed)
            && (r.Some? ==> g'.removed == Filter(g.removed, (o: RemovedPlayer) => o.bind != r.value.bind) + [r.value])
            && g'.vanjects == (if p.world.Some? then g.vanjects - Doomed(g, p.bind) else g.vanjects)
            && g'.worlds == g.worlds && g'.id == g.id
  {
    var p, k := PlayerOf(g, client), IndexOf(g.players, client).value;
    var left := LeaveWorld(g, client, order).game;
    WithPlayerHas(g, client, p.(world := None));
    FilterOne(g.players, (o: Player) => o.client != client, k);
    if p.world.Some? {
      assert left.players == g.players[k := p.(world := None)];
      FilterOne(left.players, (o: Player) => o.client != client, k);
      assert left.players[..k] == g.players[..k] && left.players[k + 1..] == g.players[k + 1..];
    }
  }

  lemma UpdateKeepsClient(g: Game, client: ClientId, p: Player)
    requires GameOk(g) && HasClient(g, client) && p.client == client && p.bind == PlayerOf(g, client).bind
    ensures GameOk(WithPlayer(g, client, p))
  {
    PlayersUpdated(g, IndexOf(g.players, client).value, p);
  }

  /** The sender's slot is one of the 30. */
  lemma SlotInRange(g: Game, client: ClientId)
    requires GameOk(g) && HasClient(g, client)
    ensures MIN_PLAYER_ID <= PlayerOf(g, client).bind <= MAX_PLAYER_ID
  {
    var k := IndexOf(g.players, client).value;
    assert PlayerOf(g, client) == g.players[k];
  }

  lemma CreateOk(g: Game, e: Event)
    requires GameOk(g) && e.Create? && Possible(g, e)
    ensures GameOk(After(g, e))
  {
    SlotInRange(g, e.client);
    UpdateKeepsClient(g, e.client,
                      PlayerOf(g, e.client).(x := e.v.x, y := e.v.y, body := BodyOf(e.v.body)));
  }

  lemma UpdateOk(g: Game, e: Event)
    requires GameOk(g) && e.Update? && Possible(g, e)
    ensures GameOk(After(g, e))
  {
    SlotInRange(g, e.client);
  }

  lemma TransferOk(g: Game, e: Event)
    requires GameOk(g) && e.TransferItem? && Possible(g, e)
    ensures GameOk(After(g, e))
  {
    SlotInRange(g, e.client);
  }

  lemma AttachOk(g: Game, e: Event)
    requires GameOk(g) && e.AttachTo? && Possible(g, e)
    ensures GameOk(After(g, e))
  {
    var slot := FreeSlot(g.players, MIN_PLAYER_ID);
    if slot.Some? {
      PlayersAppended(g, e.client, slot.value);
    }
  }

  lemma RestoreOk(g: Game, e: Event)
    requires GameOk(g) && e.Restore? && Possible(g, e)
    ensures GameOk(After(g, e))
  {
    var i := IndexOfBind(g.players, e.bind);
    if i.Some? {
      PlayersUpdated(g, i.value, g.players[i.value].(client := e.client, deadline := None));
    }
  }

  lemma EnterWorldOk(g: Game, e: Event)
    requires GameOk(g) && e.EnterWorld? && Possible(g, e)
    ensures GameOk(After(g, e))
  {
    var p := PlayerOf(g, e.client);
    var g1 := AfterSwitch(g, e.client, e.world);
    UpdateKeepsClient(g, e.client, p.(world := None));
    assert GameOk(g1);
    var p1 := PlayerOf(g1, e.client);
    WithPlayerHas(g, e.client, p.(world := None));
    assert p1.bind == p.bind;
    UpdateKeepsClient(g1, e.client, Placed(p1, e.world));
    SetWorldParts(g, e.client, e.world, e.ySize, e.order, e.walk);
  }

  /** SET_WORLD is two moves of the sender: out of its old world and, if the sizes agree, into
      the new one. */
  lemma SetWorldParts(g: Game, client: ClientId, world: byte, ySize: u16, order: seq<Id>, walk: seq<Id>)
    requires HasClient(g, client)
    requires Lists(order, if Switches(g, client, world) then Doomed(g, PlayerOf(g, client).bind) else {})
    requires Lists(walk, AfterSwitch(g, client, world).vanjects.Keys)
    ensures var r, g1 := SetWorld(g, client, world, ySize, order, walk), AfterSwitch(g, client, world);
            && (r.outcome.Failed? ==> r.game == g1)
            && (r.outcome.Done? ==>
                  && r.game.players == WithPlayer(g1, client, Placed(PlayerOf(g1, client), world)).players
                  && r.game.removed == g1.removed && r.game.vanjects == g1.vanjects)
  {
  }

  lemma GameOkStep(g: Game, e: Event)
    requires GameOk(g) && Possible(g, e)
    ensures GameOk(After(g, e))
  {
    match e
    case Create(_, _) => CreateOk(g, e);
    case Update(_, _) => UpdateOk(g, e);
    case Delete(_, _, _) =>
    case TransferItem(_, _) => TransferOk(g, e);
    case Leave(c, _) => UpdateKeepsClient(g, c, PlayerOf(g, c).(world := None));
    case EnterWorld(_, _, _, _, _) => EnterWorldOk(g, e);
    case Close(_, _) => CloseOk(g, e);
    case AttachTo(_, _, _, _) => AttachOk(g, e);
    case Restore(_, _) => RestoreOk(g, e);
    case Disconnect(c, deadline) => UpdateKeepsClient(g, c, PlayerOf(g, c).(deadline := Some(deadline)));
    case Profile(c, name, body, x, y) =>
      UpdateKeepsClient(g, c, PlayerOf(g, c).(name := name, body := body, x := x, y := y));
    case Configure(_) =>
  }

  // ---- what happens to one player ----

  /** The sender gives up its world. */
  predicate Departs(g: Game, e: Event) {
    HasClient(g, e.client) && PlayerOf(g, e.client).world.Some?
    && (e.Leave? || e.Close? || (e.EnterWorld? && PlayerOf(g, e.client).world.value != e.world))
  }

  lemma PlayerAt(g: Game, q: ClientId, i: nat)
    requires DistinctClients(g.players) && i < |g.players| && g.players[i].client == q
    ensures HasClient(g, q) && PlayerOf(g, q) == g.players[i]
  {
    assert g.players[i].client == q;
    var k := IndexOf(g.players, q).value;
    assert g.players[k].client == q && k == i;
  }

  lemma OtherKeptByUpdate(g: Game, client: ClientId, p: Player, q: ClientId)
    requires GameOk(g) && HasClient(g, q) && HasClient(g, client) && q != client
    requires p.client == client && p.bind == PlayerOf(g, client).bind
    ensures HasClient(WithPlayer(g, client, p), q) && PlayerOf(WithPlayer(g, client, p), q) == PlayerOf(g, q)
  {
    UpdateKeepsClient(g, client, p);
    PlayerAt(WithPlayer(g, client, p), q, IndexOf(g.players, q).value);
  }

  lemma OtherKeptByEntry(g: Game, e: Event, q: ClientId)
    requires GameOk(g) && HasClient(g, q) && e.EnterWorld? && Possible(g, e) && e.client != q
    ensures HasClient(After(g, e), q) && PlayerOf(After(g, e), q) == PlayerOf(g, q)
  {
    var p, g1 := PlayerOf(g, e.client), AfterSwitch(g, e.client, e.world);
    if Departs(g, e) {
      OtherKeptByUpdate(g, e.client, p.(world := None), q);
      UpdateKeepsClient(g, e.client, p.(world := None));
      WithPlayerHas(g, e.client, p.(world := None));
    }
    assert GameOk(g1) && HasClient(g1, q) && PlayerOf(g1, q) == PlayerOf(g, q);
    OtherKeptByUpdate(g1, e.client, Placed(PlayerOf(g1, e.client), e.world), q);
    SetWorldParts(g, e.client, e.world, e.ySize, e.order, e.walk);
  }

  lemma OtherStaysListed(players: seq<Player>, client: ClientId, q: ClientId) returns (j: nat)
    requires DistinctClients(players) && IndexOf(players, client).Some? && IndexOf(players, q).Some? && client != q
    ensures var rest := Filter(players, (o: Player) => o.client != client);
            j < |rest| && rest[j] == players[IndexOf(players, q).value]
  {
    var i, k := IndexOf(players, q).value, IndexOf(players, client).value;
    FilterOne(players, (o: Player) => o.client != client, k);
    j := if i < k then i else i - 1;
    assert (players[..k] + players[k + 1..])[j] == players[i];
  }

  lemma OtherKeptByClose(g: Game, e: Event, q: ClientId)
    requires GameOk(g) && HasClient(g, q) && e.Close? && Possible(g, e) && e.client != q
    ensures HasClient(After(g, e), q) && PlayerOf(After(g, e), q) == PlayerOf(g, q)
  {
    CloseOk(g, e);
    CloseParts(g, e.client, e.order);
    var j := OtherStaysListed(g.players, e.client, q);
    PlayerAt(After(g, e), q, j);
  }

  lemma OtherKeptByAttach(g: Game, e: Event, q: ClientId)
    requires GameOk(g) && HasClient(g, q) && e.AttachTo? && Possible(g, e)
    ensures HasClient(After(g, e), q) && PlayerOf(After(g, e), q) == PlayerOf(g, q)
  {
    AttachOk(g, e);
    var i := IndexOf(g.players, q).value;
    assert After(g, e).players[i] == g.players[i];
    PlayerAt(After(g, e), q, i);
  }

  lemma OtherKeptByRestore(g: Game, e: Event, q: ClientId)
    requires GameOk(g) && HasClient(g, q) && e.Restore? && Possible(g, e) && e.bind != PlayerOf(g, q).bind
    ensures HasClient(After(g, e), q) && PlayerOf(After(g, e), q) == PlayerOf(g, q)
  {
    RestoreOk(g, e);
    var i := IndexOf(g.players, q).value;
    assert After(g, e).players[i] == g.players[i];
    PlayerAt(After(g, e), q, i);
  }

  /** A player changes only by its own messages, or by losing its slot to a restored connection. */
  lemma OtherPlayerKept(g: Game, e: Event, q: ClientId)
    requires GameOk(g) && HasClient(g, q) && Possible(g, e) && e.client != q
    requires e.Restore? ==> e.bind != PlayerOf(g, q).bind
    ensures HasClient(After(g, e), q) && PlayerOf(After(g, e), q) == PlayerOf(g, q)
  {
    match e
    case Create(c, v) => OtherKeptByUpdate(g, c, PlayerOf(g, c).(x := v.x, y := v.y, body := BodyOf(v.body)), q);
    case Update(_, _) =>
    case Delete(_, _, _) =>
    case TransferItem(_, _) =>
    case Leave(c, _) => OtherKeptByUpdate(g, c, PlayerOf(g, c).(world := None), q);
    case EnterWorld(_, _, _, _, _) => OtherKeptByEntry(g, e, q);
    case Close(_, _) => OtherKeptByClose(g, e, q);
    case AttachTo(_, _, _, _) => OtherKeptByAttach(g, e, q);
    case Restore(_, _) => OtherKeptByRestore(g, e, q);
    case Disconnect(c, deadline) => OtherKeptByUpdate(g, c, PlayerOf(g, c).(deadline := Some(deadline)), q);
    case Profile(c, name, body, x, y) =>
      OtherKeptByUpdate(g, c, PlayerOf(g, c).(name := name, body := body, x := x, y := y), q);
    case Configure(_) =>
  }

  /** The world a player is in after its own message. */
  ghost function WorldAfter(g: Game, e: Event): Option<byte>
    requires Possible(g, e) && HasClient(g, e.client)
  {
    if e.EnterWorld? && Step(g, e).outcome.Done? then Some(e.world)
    else if Departs(g, e) then None
    else PlayerOf(g, e.client).world
  }

  ghost predicate OwnRecord(g: Game, e: Event, g': Game)
    requires Possible(g, e) && HasClient(g, e.client)
  {
    && HasClient(g', e.client)
    && var p, p' := PlayerOf(g, e.client), PlayerOf(g', e.client);
       && p'.bind == p.bind && p'.world == WorldAfter(g, e)
       && p'.deadline == if e.Disconnect? then Some(e.deadline) else p.deadline
  }

  lemma OwnEntry(g: Game, e: Event)
    requires e.EnterWorld? && Possible(g, e)
    ensures OwnRecord(g, e, After(g, e))
  {
    var p, g1 := PlayerOf(g, e.client), AfterSwitch(g, e.client, e.world);
    WithPlayerHas(g, e.client, p.(world := None));
    WithPlayerHas(g1, e.client, Placed(PlayerOf(g1, e.client), e.world));
    SetWorldParts(g, e.client, e.world, e.ySize, e.order, e.walk);
    var g2 := WithPlayer(g1, e.client, Placed(PlayerOf(g1, e.client), e.world));
    if Step(g, e).outcome.Done? {
      SamePlayers(After(g, e), g2, e.client);
    }
  }

  lemma SamePlayers(g: Game, g': Game, client: ClientId)
    requires g.players == g'.players && HasClient(g', client)
    ensures HasClient(g, client) && PlayerOf(g, client) == PlayerOf(g', client)
  {
  }

  lemma OwnUpdated(g: Game, e: Event, p: Player)
    requires Possible(g, e) && HasClient(g, e.client) && p.client == e.client
    requires After(g, e).players == WithPlayer(g, e.client, p).players
    ensures HasClient(After(g, e), e.client) && PlayerOf(After(g, e), e.client) == p
  {
    WithPlayerHas(g, e.client, p);
    SamePlayers(After(g, e), WithPlayer(g, e.client, p), e.client);
  }

  lemma OwnCreation(g: Game, e: Event)
    requires e.Create? && Possible(g, e)
    ensures OwnRecord(g, e, After(g, e))
  {
    if After(g, e).players == g.players {
      SamePlayers(After(g, e), g, e.client);
    } else {
      OwnUpdated(g, e, PlayerOf(g, e.client).(x := e.v.x, y := e.v.y, body := BodyOf(e.v.body)));
    }
  }

  lemma OwnUnchanged(g: Game, e: Event)
    requires (e.Update? || e.Delete? || e.TransferItem? || e.Configure?) && Possible(g, e)
    ensures OwnRecord(g, e, After(g, e))
  {
    assert After(g, e).players == g.players;
    SamePlayers(After(g, e), g, e.client);
  }

  /** A player keeps its slot; its own messages move it between worlds. */
  lemma OwnPlayerKept(g: Game, e: Event)
    requires Possible(g, e) && HasClient(g, e.client) && !e.Close?
    ensures OwnRecord(g, e, After(g, e))
  {
    match e
    case Create(_, _) => OwnCreation(g, e);
    case Leave(c, _) => WithPlayerHas(g, c, PlayerOf(g, c).(world := None));
    case EnterWorld(_, _, _, _, _) => OwnEntry(g, e);
    case Disconnect(c, deadline) => WithPlayerHas(g, c, PlayerOf(g, c).(deadline := Some(deadline)));
    case Profile(c, name, body, x, y) =>
      WithPlayerHas(g, c, PlayerOf(g, c).(name := name, body := body, x := x, y := y));
    case _ => OwnUnchanged(g, e);
  }

  // ---- runs ----

  lemma {:induction false} GameOkRun(g: Game, es: seq<Event>)
    requires GameOk(g) && IsRun(g, es)
    ensures GameOk(Run(g, es))
    decreases es
  {
    if es != [] {
      GameOkStep(g, es[0]);
      GameOkRun(After(g, es[0]), es[1..]);
    }
  }

  /** Every state a game reaches from its creation is in order: slots in 1..30, each held once, by a
      live or by a removed player; keys are the stored ids and owners are slots. */
  lemma ReachableGameOk(id: u32, es: seq<Event>)
    requires IsRun(NewGame(id), es)
    ensures GameOk(Run(NewGame(id), es))
    ensures |Run(NewGame(id), es).players| + |Run(NewGame(id), es).removed| <= 30
  {
    GameOkRun(NewGame(id), es);
    AtMostThirtyPlayers(Run(NewGame(id), es));
  }

  /** At most 30 players, live and removed together. */
  lemma AtMostThirtyPlayers(g: Game)
    requires GameOk(g)
    ensures |g.players| + |g.removed| <= 30
  {
    var binds := Binds(g.players) + RemovedBinds(g.removed);
    forall x | x in binds ensures 1 <= x <= 30 {
      var i :| 0 <= i < |binds| && binds[i] == x;
    }
    Pigeonhole(binds, 30);
  }

  function RemovedBinds(removed: seq<RemovedPlayer>): (bs: seq<int>)
    ensures |bs| == |removed| && forall i :: 0 <= i < |bs| ==> bs[i] == removed[i].bind
  {
    seq(|removed|, i requires 0 <= i < |removed| => removed[i].bind as int)
  }
}
