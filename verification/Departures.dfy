/** What a player takes with it when it gives up its world, in terms of the raw ids. */
module Departures {
  import opened Wrappers
  import opened Bytes
  import opened Seqs
  import opened Vanjects
  import opened Messages
  import opened Games
  import opened Handlers
  import opened Steps
  import opened Tables
  import opened Snapshots

  /** An object goes with the player on a slot if the player carries it, or if it is private to the
      station of that number. */
  predicate GoesByBits(raw: u32, owner: byte, slot: byte) {
    || (IsNonGlobalVanject(raw) && IsPlayersVanject(raw) && owner == slot)
    || (GetStation(raw) as int == slot as int && IsPrivateVanject(raw))
  }

  lemma BitsDecide(v: Vanject, slot: byte)
    ensures ShouldDeleteOnLeaveWorld(v, slot) <==> GoesByBits(ToRaw(v.id), v.owner, slot)
  {
    var raw := ToRaw(v.id);
    IdToRawToId(v.id);
    Classifiers(raw);
    TypeCode(v.id);
  }

  /** A player that leaves, moves to another world or closes takes exactly these objects with it; every
      other one stays as it was. */
  lemma DepartureByBits(g: Game, e: Event, id: Id)
    requires GameOk(g) && Possible(g, e) && Departs(g, e)
    ensures id in After(g, e).vanjects
            <==> id in g.vanjects && !GoesByBits(ToRaw(id), g.vanjects[id].owner, PlayerOf(g, e.client).bind)
    ensures id in After(g, e).vanjects ==> After(g, e).vanjects[id] == g.vanjects[id]
  {
    var c := DepartureMakes(g, e);
    if id in g.vanjects {
      BitsDecide(g.vanjects[id], PlayerOf(g, e.client).bind);
    }
  }

  /** In particular no vanger of the player's own station remains, whoever owns it. */
  lemma NoVangerRemains(g: Game, e: Event, id: Id)
    requires GameOk(g) && Possible(g, e) && Departs(g, e)
    requires GetVanjectType(ToRaw(id)) == 0x9_0000
    requires GetStation(ToRaw(id)) as int == PlayerOf(g, e.client).bind as int
    ensures id !in After(g, e).vanjects
  {
    var raw := ToRaw(id);
    DepartureByBits(g, e, id);
    IdToRawToId(id);
    Classifiers(raw);
    TypeCode(id);
  }

  // ---- what the others are told ----

  /** A player is sent the message. */
  ghost predicate Told(ns: seq<Notice>, q: ClientId, m: Message) {
    exists i :: 0 <= i < |ns| && ns[i].message == m && q in ns[i].to
  }

  lemma ToldPrefix(ns: seq<Notice>, more: seq<Notice>, q: ClientId, m: Message)
    requires !Told(more, q, m)
    ensures Told(ns + more, q, m) <==> Told(ns, q, m)
  {
    if Told(ns, q, m) {
      var i :| 0 <= i < |ns| && ns[i].message == m && q in ns[i].to;
      assert (ns + more)[i] == ns[i];
    }
    if Told(ns + more, q, m) {
      var i :| 0 <= i < |ns + more| && (ns + more)[i].message == m && q in (ns + more)[i].to;
      if i >= |ns| {
        assert more[i - |ns|] == (ns + more)[i];
      }
    }
  }

  /** The deletion of a stored object, as it is sent: who deletes it, and the object's time. */
  function DeletionOf(v: Vanject, slot: byte): Message {
    ObjectDelete(v.id, slot, ToLe32(v.time))
  }

  lemma ToldOfDoomed(g: Game, client: ClientId, order: seq<Id>, q: ClientId, id: Id)
    requires GameOk(g) && HasClient(g, client) && HasClient(g, q) && q != client && id in g.vanjects
    requires PlayerOf(g, client).world.Some? && Lists(order, Doomed(g, PlayerOf(g, client).bind))
    ensures var bind := PlayerOf(g, client).bind;
            Told(LeaveWorld(g, client, order).notices, q, DeletionOf(g.vanjects[id], bind))
            <==> ShouldDeleteOnLeaveWorld(g.vanjects[id], bind)
  {
    var bind, to := PlayerOf(g, client).bind, Others(g, client);
    DoomedInside(g, bind, order);
    DeleteNoticesAt(g, bind, to, order);
    var ns, m := DeleteNotices(g, bind, to, order), DeletionOf(g.vanjects[id], bind);
    OthersInGame(g, client, q);
    ToldPrefix(ns, [Notice(to, PlayersWorld(bind, 0))], q, m);
    if ShouldDeleteOnLeaveWorld(g.vanjects[id], bind) {
      assert id in order;
      var i :| 0 <= i < |order| && order[i] == id;
      assert ns[i].message == m && q in ns[i].to;
    }
    if Told(ns, q, m) {
      var i :| 0 <= i < |ns| && ns[i].message == m && q in ns[i].to;
      assert order[i] in order && order[i] == id;
    }
  }

  lemma OthersInGame(g: Game, client: ClientId, q: ClientId)
    ensures q in Others(g, client) <==> HasClient(g, q) && q != client
  {
    if q in Others(g, client) {
      var p :| p in g.players && p.client != client && p.client == q;
      var i :| 0 <= i < |g.players| && g.players[i] == p;
      assert g.players[i].client == q;
    }
    if HasClient(g, q) {
      assert PlayerOf(g, q) in g.players;
    }
  }

  /** The rest of the answers to a departing message. */
  ghost predicate NoDeletions(ns: seq<Notice>) {
    forall i :: 0 <= i < |ns| ==> !ns[i].message.ObjectDelete?
  }

  lemma {:induction false} NoDeletionAnnounced(vs: seq<Vanject>, to: set<ClientId>)
    ensures NoDeletions(AnnounceAll(vs, to))
  {
    if vs != [] {
      NoDeletionAnnounced(vs[1..], to);
    }
  }

  lemma HeadDeletesNothing(g: Game, client: ClientId, world: byte, created: byte, list: seq<byte>)
    requires HasClient(g, client)
    ensures NoDeletions(Starting(g, PlayerOf(g, client)) + Greeting(g, client, world, created, list))
  {
  }

  lemma EnteringDeletesNothing(g: Game, client: ClientId, world: byte, created: byte, walk: seq<Id>)
    requires HasClient(g, client) && Lists(walk, g.vanjects.Keys)
    ensures NoDeletions(Enter(g, client, world, created, walk).notices)
  {
    var p := PlayerOf(g, client);
    WalkInside(g.vanjects, walk);
    var shown := Snapshot(g.vanjects, world, p.bind, walk);
    var list := TotalPlayersData(WithPlayer(g, client, Placed(p, world)));
    HeadDeletesNothing(g, client, world, created, list);
    NoDeletionAnnounced(shown, {client});
    var head, end := Starting(g, p) + Greeting(g, client, world, created, list), Notice({client}, SnapshotEnd(world));
    NoDeletionsInTurn(head, AnnounceAll(shown, {client}), end);
    assert Enter(g, client, world, created, walk).notices == head + AnnounceAll(shown, {client}) + [end];
  }

  lemma NoDeletionsInTurn(head: seq<Notice>, middle: seq<Notice>, end: Notice)
    requires NoDeletions(head) && NoDeletions(middle) && !end.message.ObjectDelete?
    ensures NoDeletions(head + middle + [end])
  {
  }

  lemma ArrivingDeletesNothing(g: Game, client: ClientId, world: byte, ySize: u16, walk: seq<Id>)
    requires HasClient(g, client) && Lists(walk, g.vanjects.Keys)
    ensures NoDeletions(Arrive(g, client, world, ySize, walk).notices)
  {
    if WorldOf(g.worlds, world).None? {
      EnteringDeletesNothing(g.(worlds := g.worlds + [World(world, ySize)]), client, world, 1, walk);
    } else {
      EnteringDeletesNothing(g, client, world, 0, walk);
    }
  }

  /** What is sent behind the departure itself. */
  lemma BehindDeparture(g: Game, e: Event) returns (rest: seq<Notice>)
    requires GameOk(g) && Possible(g, e) && Departs(g, e)
    ensures Step(g, e).notices == LeaveWorld(g, e.client, e.order).notices + rest && NoDeletions(rest)
  {
    var left := LeaveWorld(g, e.client, e.order);
    WithPlayerHas(g, e.client, PlayerOf(g, e.client).(world := None));
    if e.Leave? {
      rest := [];
      assert left.notices + [] == left.notices;
    } else if e.Close? {
      rest := FinishNotices(left.game, e.client);
    } else {
      rest := Arrive(AfterSwitch(g, e.client, e.world), e.client, e.world, e.ySize, e.walk).notices;
      ArrivingDeletesNothing(AfterSwitch(g, e.client, e.world), e.client, e.world, e.ySize, e.walk);
    }
  }

  /** Every other player of the game is sent the deletion of a stored object exactly if it goes. */
  lemma DepartureTellsByBits(g: Game, e: Event, id: Id, q: ClientId)
    requires GameOk(g) && Possible(g, e) && Departs(g, e)
    requires id in g.vanjects && HasClient(g, q) && q != e.client
    ensures var slot := PlayerOf(g, e.client).bind;
            Told(Step(g, e).notices, q, DeletionOf(g.vanjects[id], slot))
            <==> GoesByBits(ToRaw(id), g.vanjects[id].owner, slot)
  {
    var slot := PlayerOf(g, e.client).bind;
    var rest := BehindDeparture(g, e);
    ToldOfDoomed(g, e.client, e.order, q, id);
    ToldPrefix(LeaveWorld(g, e.client, e.order).notices, rest, q, DeletionOf(g.vanjects[id], slot));
    BitsDecide(g.vanjects[id], slot);
  }
}
