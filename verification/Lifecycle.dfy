/** Which connection holds which slot: restored connections, and those that come too late. */
module Lifecycle {
  import opened Wrappers
  import opened Bytes
  import opened Seqs
  import opened Games
  import opened Handlers
  import opened Steps

  /** The connection is a player on this slot, with this deadline, if any. */
  ghost predicate Holds(g: Game, client: ClientId, bind: byte, deadline: Option<nat> := None) {
    HasClient(g, client) && PlayerOf(g, client).bind == bind && PlayerOf(g, client).deadline == deadline
  }

  // ---- the connections of a game ----

  lemma ClientsUpdated(g: Game, client: ClientId, p: Player, c: ClientId)
    requires HasClient(g, client) && p.client == client && HasClient(WithPlayer(g, client, p), c)
    ensures HasClient(g, c)
  {
    var g' := WithPlayer(g, client, p);
    var i := IndexOf(g'.players, c).value;
    assert g.players[i].client == c;
  }

  lemma ClientsEntered(g: Game, e: Event, c: ClientId)
    requires e.EnterWorld? && Possible(g, e) && HasClient(After(g, e), c)
    ensures HasClient(g, c)
  {
    var p, g1 := PlayerOf(g, e.client), AfterSwitch(g, e.client, e.world);
    SetWorldParts(g, e.client, e.world, e.ySize, e.order, e.walk);
    if Step(g, e).outcome.Done? {
      SamePlayers(WithPlayer(g1, e.client, Placed(PlayerOf(g1, e.client), e.world)), After(g, e), c);
      ClientsUpdated(g1, e.client, Placed(PlayerOf(g1, e.client), e.world), c);
    }
    if Departs(g, e) {
      SamePlayers(WithPlayer(g, e.client, p.(world := None)), g1, c);
      ClientsUpdated(g, e.client, p.(world := None), c);
    }
  }

  lemma ClientsClosed(g: Game, e: Event, c: ClientId)
    requires e.Close? && DistinctClients(g.players) && Possible(g, e) && HasClient(After(g, e), c)
    ensures HasClient(g, c) && c != e.client
  {
    CloseParts(g, e.client, e.order);
    FilterMembers(g.players, (o: Player) => o.client != e.client);
    var p := PlayerOf(After(g, e), c);
    var i :| 0 <= i < |g.players| && g.players[i] == p;
    assert g.players[i].client == c;
  }

  lemma ClientsJoined(g: Game, e: Event, c: ClientId)
    requires (e.AttachTo? || e.Restore?) && Possible(g, e) && HasClient(After(g, e), c)
    ensures HasClient(g, c) || c == e.client
  {
    var players := After(g, e).players;
    var i := IndexOf(players, c).value;
    if players[i].client != e.client {
      assert players[i] == g.players[i];
    }
  }

  lemma ClientsOfObjects(g: Game, e: Event, c: ClientId)
    requires (e.Create? || e.Update? || e.Delete? || e.TransferItem?) && Possible(g, e) && HasClient(After(g, e), c)
    ensures HasClient(g, c)
  {
    if e.Create? && After(g, e).players != g.players {
      ClientsUpdated(g, e.client, PlayerOf(g, e.client).(x := e.v.x, y := e.v.y, body := BodyOf(e.v.body)), c);
    }
  }

  /** Only attaching and restoring give a connection a player. */
  lemma ClientsStep(g: Game, e: Event, c: ClientId)
    requires Possible(g, e) && DistinctClients(g.players) && HasClient(After(g, e), c)
    ensures HasClient(g, c) || ((e.AttachTo? || e.Restore?) && c == e.client)
    ensures e.Close? ==> c != e.client
  {
    match e
    case Leave(q, _) =>
      if Departs(g, e) {
        ClientsUpdated(g, q, PlayerOf(g, q).(world := None), c);
      }
    case EnterWorld(_, _, _, _, _) => ClientsEntered(g, e, c);
    case Close(_, _) => ClientsClosed(g, e, c);
    case AttachTo(_, _, _, _) => ClientsJoined(g, e, c);
    case Restore(_, _) => ClientsJoined(g, e, c);
    case Disconnect(q, deadline) => ClientsUpdated(g, q, PlayerOf(g, q).(deadline := Some(deadline)), c);
    case Profile(q, name, body, x, y) =>
      ClientsUpdated(g, q, PlayerOf(g, q).(name := name, body := body, x := x, y := y), c);
    case Configure(_) =>
    case _ => ClientsOfObjects(g, e, c);
  }

  // ---- restored connections ----

  /** A restored connection holds the slot, and the connection it replaces holds nothing. */
  lemma RestoreTakesOver(g: Game, client: ClientId, bind: byte, i: nat)
    requires GameOk(g) && !HasClient(g, client) && i < |g.players| && g.players[i].bind == bind
    ensures Holds(RestoreConnection(g, client, bind), client, bind)
    ensures !HasClient(RestoreConnection(g, client, bind), g.players[i].client)
  {
    var g', old' := RestoreConnection(g, client, bind), g.players[i].client;
    assert g.players[i].client == old';
    var k := IndexOfBind(g.players, bind).value;
    assert k == i;
    RestoreOk(g, Restore(client, bind));
    PlayerAt(g', client, i);
    assert forall j :: 0 <= j < |g'.players| && j != i ==> g'.players[j] == g.players[j];
  }

  /** The connection does not close or break, and no other one takes the slot over. */
  ghost predicate Keeps(e: Event, client: ClientId, bind: byte) {
    (e.client == client ==> !e.Close? && !e.Disconnect?) && (e.Restore? ==> e.bind != bind)
  }

  lemma HoldsStep(g: Game, e: Event, client: ClientId, bind: byte, deadline: Option<nat> := None)
    requires GameOk(g) && Holds(g, client, bind, deadline) && Possible(g, e) && Keeps(e, client, bind)
    ensures Holds(After(g, e), client, bind, deadline)
  {
    if e.client == client {
      OwnPlayerKept(g, e);
    } else {
      OtherPlayerKept(g, e, client);
    }
  }

  /** Only losing its connection gives a player a deadline. */
  lemma DeadlineStep(g: Game, e: Event, c: ClientId)
    requires GameOk(g) && Possible(g, e) && HasClient(After(g, e), c) && !(e.Disconnect? && e.client == c)
    ensures var p := PlayerOf(After(g, e), c);
            p.deadline.None? || (HasClient(g, c) && p.deadline == PlayerOf(g, c).deadline)
  {
    ClientsStep(g, e, c);
    if e.AttachTo? && e.client == c {
      DeadlineOfNew(g, e);
    } else if e.Restore? && IndexOfBind(g.players, e.bind).Some? && (e.client == c || PlayerOf(g, c).bind == e.bind) {
      var i := IndexOfBind(g.players, e.bind).value;
      RestoreTakesOver(g, e.client, e.bind, i);
      if e.client != c {
        DistinctKey(g.players, (o: Player) => o.bind as int, PlayerOf(g, c), g.players[i]);
      }
    } else if e.client == c {
      OwnPlayerKept(g, e);
    } else {
      OtherPlayerKept(g, e, c);
    }
  }

  lemma DeadlineOfNew(g: Game, e: Event)
    requires GameOk(g) && e.AttachTo? && Possible(g, e) && HasClient(After(g, e), e.client)
    ensures PlayerOf(After(g, e), e.client).deadline.None?
  {
    if FreeSlot(g.players, MIN_PLAYER_ID).Some? {
      AttachOk(g, e);
      PlayerAt(After(g, e), e.client, |g.players|);
    }
  }

  // ---- removed players ----

  /** A player that closes, if it has a name and a body, is remembered with its slot, without a world,
      and as finished if it was playing. */
  lemma ClosedIsRemembered(g: Game, e: Event)
    requires GameOk(g) && e.Close? && Possible(g, e)
    requires PlayerOf(g, e.client).name.Some? && PlayerOf(g, e.client).body.Some?
    ensures var p := PlayerOf(g, e.client);
            var status := if p.status == GAMING then FINISHED else p.status;
            RemovedPlayer(p.bind, status, 0, p.x, p.y, p.name.value, p.body.value)
            in After(g, e).removed
  {
    CloseParts(g, e.client, e.order);
    var removed := After(g, e).removed;
    var last := removed[|removed| - 1];
    assert last in removed;
  }

  /** It is forgotten only when its slot is taken again. */
  lemma RemovedIsKept(g: Game, e: Event, r: RemovedPlayer)
    requires GameOk(g) && Possible(g, e) && r in g.removed
    ensures r in After(g, e).removed
            <==> !(e.AttachTo? && FreeSlot(g.players, MIN_PLAYER_ID) == Some(r.bind))
  {
    if e.AttachTo? && FreeSlot(g.players, MIN_PLAYER_ID).Some? {
      var slot := FreeSlot(g.players, MIN_PLAYER_ID).value;
      FilterMembers(g.removed, (o: RemovedPlayer) => o.bind != slot);
    } else if e.Close? {
      ClosedKeepsRemoved(g, e, r);
    } else if e.EnterWorld? {
      SetWorldParts(g, e.client, e.world, e.ySize, e.order, e.walk);
    }
  }

  lemma RemovedIsNotLive(g: Game, client: ClientId, r: RemovedPlayer)
    requires GameOk(g) && HasClient(g, client) && r in g.removed
    ensures r.bind != PlayerOf(g, client).bind
  {
    var k := IndexOf(g.players, client).value;
    var i :| 0 <= i < |g.removed| && g.removed[i] == r;
    assert g.removed[i].bind != g.players[k].bind;
  }

  lemma ClosedKeepsRemoved(g: Game, e: Event, r: RemovedPlayer)
    requires GameOk(g) && e.Close? && Possible(g, e) && r in g.removed
    ensures r in After(g, e).removed
  {
    var bind := PlayerOf(g, e.client).bind;
    CloseParts(g, e.client, e.order);
    RemovedIsNotLive(g, e.client, r);
    FilterMembers(g.removed, (o: RemovedPlayer) => o.bind != bind);
  }
}
