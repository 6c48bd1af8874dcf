/** What a player is answered when it enters a world or attaches to a game, in order. */
module Answers {
  import opened Wrappers
  import opened Bytes
  import opened Seqs
  import opened Vanjects
  import opened Messages
  import opened Games
  import opened Handlers
  import opened Steps
  import opened Snapshots
  import opened Replica
  import opened Servers

  // ---- worlds ----

  /** The first world with this id, if there is one, has this size. */
  ghost predicate SizeAgrees(worlds: seq<World>, id: byte, ySize: u16) {
    forall i :: 0 <= i < |worlds| && worlds[i].id == id && (forall j :: 0 <= j < i ==> worlds[j].id != id) ==>
      worlds[i].ySize == ySize
  }

  lemma {:induction false} FirstWorld(worlds: seq<World>, id: byte, ySize: u16)
    ensures WorldOf(worlds, id).None? ==> forall i :: 0 <= i < |worlds| ==> worlds[i].id != id
    ensures SizeAgrees(worlds, id, ySize)
            <==> (WorldOf(worlds, id).None? || WorldOf(worlds, id).value.ySize == ySize)
  {
    if worlds != [] && worlds[0].id != id {
      FirstWorld(worlds[1..], id, ySize);
      SizeBehind(worlds, id, ySize);
    }
  }

  lemma SizeBehind(worlds: seq<World>, id: byte, ySize: u16)
    requires worlds != [] && worlds[0].id != id
    ensures SizeAgrees(worlds, id, ySize) <==> SizeAgrees(worlds[1..], id, ySize)
  {
    if SizeAgrees(worlds, id, ySize) {
      forall i | 0 <= i < |worlds[1..]| && worlds[1..][i].id == id
                 && (forall j :: 0 <= j < i ==> worlds[1..][j].id != id)
        ensures worlds[1..][i].ySize == ySize
      {
        assert worlds[i + 1].id == id;
        forall j | 0 <= j < i + 1 ensures worlds[j].id != id {
          assert j > 0 ==> worlds[j] == worlds[1..][j - 1];
        }
      }
    }
    if SizeAgrees(worlds[1..], id, ySize) {
      forall i | 0 <= i < |worlds| && worlds[i].id == id && (forall j :: 0 <= j < i ==> worlds[j].id != id)
        ensures worlds[i].ySize == ySize
      {
        assert worlds[1..][i - 1].id == id;
        forall j | 0 <= j < i - 1 ensures worlds[1..][j].id != id {
          assert worlds[1..][j] == worlds[j + 1];
        }
      }
    }
  }

  /** SET_WORLD is accepted exactly if the world is new to the game or has the size that the sender gives;
      otherwise the sender is out of all other worlds all the same. */
  lemma EntryAccepted(g: Game, e: Event)
    requires GameOk(g) && e.EnterWorld? && Possible(g, e)
    ensures Step(g, e).outcome.Done? <==> SizeAgrees(g.worlds, e.world, e.ySize)
    ensures HasClient(After(g, e), e.client)
    ensures var p, p' := PlayerOf(g, e.client), PlayerOf(After(g, e), e.client);
            if Step(g, e).outcome.Done? then p' == p.(world := Some(e.world), status := GAMING)
            else p' == p.(world := if p.world == Some(e.world) then p.world else None)
  {
    var p, g1 := PlayerOf(g, e.client), AfterSwitch(g, e.client, e.world);
    FirstWorld(g.worlds, e.world, e.ySize);
    WithPlayerHas(g, e.client, p.(world := None));
    assert g1.worlds == g.worlds;
    var p1 := PlayerOf(g1, e.client);
    SetWorldParts(g, e.client, e.world, e.ySize, e.order, e.walk);
    WithPlayerHas(g1, e.client, p1.(world := Some(e.world), status := GAMING));
    if Step(g, e).outcome.Done? {
      SamePlayers(After(g, e), WithPlayer(g1, e.client, p1.(world := Some(e.world), status := GAMING)), e.client);
    }
  }

  ghost predicate WorldsOk(worlds: seq<World>) {
    forall i, j :: 0 <= i < j < |worlds| ==> worlds[i].id != worlds[j].id
  }

  /** Only an accepted SET_WORLD adds a world, a new one, with the size that its sender gives. */
  lemma WorldsStep(g: Game, e: Event)
    requires GameOk(g) && WorldsOk(g.worlds) && Possible(g, e)
    ensures WorldsOk(After(g, e).worlds)
    ensures if e.EnterWorld? && forall i :: 0 <= i < |g.worlds| ==> g.worlds[i].id != e.world
            then After(g, e).worlds == g.worlds + [World(e.world, e.ySize)]
            else After(g, e).worlds == g.worlds
  {
    if e.EnterWorld? {
      EntryWorlds(g, e);
    } else if e.Close? {
      CloseParts(g, e.client, e.order);
    } else {
      OtherWorlds(g, e);
    }
  }

  lemma OtherWorlds(g: Game, e: Event)
    requires Possible(g, e) && !e.EnterWorld? && !e.Close?
    ensures After(g, e).worlds == g.worlds
  {
  }

  lemma EntryWorlds(g: Game, e: Event)
    requires GameOk(g) && WorldsOk(g.worlds) && Possible(g, e) && e.EnterWorld?
    ensures WorldsOk(After(g, e).worlds)
    ensures if forall i :: 0 <= i < |g.worlds| ==> g.worlds[i].id != e.world
            then After(g, e).worlds == g.worlds + [World(e.world, e.ySize)]
            else After(g, e).worlds == g.worlds
  {
    var g1 := AfterSwitch(g, e.client, e.world);
    FirstWorld(g.worlds, e.world, e.ySize);
    assert g1.worlds == g.worlds;
    assert After(g, e) == Arrive(g1, e.client, e.world, e.ySize, e.walk).game;
    if WorldOf(g.worlds, e.world).Some? {
      var i :| 0 <= i < |g.worlds| && g.worlds[i] == WorldOf(g.worlds, e.world).value;
      assert g.worlds[i].id == e.world;
    }
  }

  /** Over any run of a game a world keeps its size: whoever enters it gave the size of whoever entered it
      first. */
  lemma {:induction false} WorldsRun(g: Game, es: seq<Event>)
    requires GameOk(g) && WorldsOk(g.worlds) && IsRun(g, es)
    ensures WorldsOk(Run(g, es).worlds) && g.worlds <= Run(g, es).worlds
    decreases es
  {
    if es != [] {
      WorldsStep(g, es[0]);
      GameOkStep(g, es[0]);
      WorldsRun(After(g, es[0]), es[1..]);
    }
  }

  // ---- the answer to SET_WORLD ----

  function Announcements(vs: seq<Vanject>): (ms: seq<Message>)
    ensures |ms| == |vs| && forall i :: 0 <= i < |ms| ==> ms[i] == Announce(vs[i])
  {
    seq(|vs|, i requires 0 <= i < |vs| => Announce(vs[i]))
  }

  lemma {:induction false} AddressedAnnouncements(vs: seq<Vanject>, q: ClientId)
    ensures AddressedTo(AnnounceAll(vs, {q}), q) == Announcements(vs)
  {
    if vs != [] {
      var first := Notice({q}, Announce(vs[0]));
      AddressedAnnouncements(vs[1..], q);
      AddressedAppend([first], AnnounceAll(vs[1..], {q}), q);
      AddressedOne(first, q);
    }
  }

  /** What precedes the snapshot. */
  function EntryHead(p: Player, world: byte, isNew: bool, list: seq<byte>): seq<Message> {
    (if p.status != GAMING then [PlayersStatus(p.bind, 1)] else [])
    + [SetWorldResponse(world, if isNew then 1 else 0), SnapshotBegin(world), TotalPlayers(list)]
  }

  lemma AddressedHead(g: Game, client: ClientId, world: byte, created: byte, list: seq<byte>)
    requires HasClient(g, client)
    ensures AddressedTo(Starting(g, PlayerOf(g, client)), client)
            == if PlayerOf(g, client).status != GAMING then [PlayersStatus(PlayerOf(g, client).bind, 1)] else []
    ensures AddressedTo(Greeting(g, client, world, created, list), client)
            == [SetWorldResponse(world, created), SnapshotBegin(world), TotalPlayers(list)]
  {
    var p := PlayerOf(g, client);
    assert p in g.players && client in Everyone(g);
    AddressedOne(Notice(Everyone(g), PlayersStatus(p.bind, StatusCode(GAMING))), client);
    var a := Notice(Others(g, client), PlayersWorld(p.bind, world));
    var b := Notice({client}, SetWorldResponse(world, created));
    var c, d := Notice({client}, SnapshotBegin(world)), Notice({client}, TotalPlayers(list));
    AddressedOne(a, client);
    AddressedAppend([a], [b], client);
    AddressedOne(b, client);
    AddressedAppend([a] + [b], [c], client);
    AddressedOne(c, client);
    AddressedAppend([a] + [b] + [c], [d], client);
    AddressedOne(d, client);
    assert Greeting(g, client, world, created, list) == [a] + [b] + [c] + [d];
  }

  /** The whole answer of a player that enters. */
  lemma EnterAnswer(g: Game, client: ClientId, world: byte, created: byte, walk: seq<Id>)
    requires HasClient(g, client) && Lists(walk, g.vanjects.Keys) && created in {0, 1}
    requires forall i :: 0 <= i < |walk| ==> walk[i] in g.vanjects
    ensures var r, p := Enter(g, client, world, created, walk), PlayerOf(g, client);
            AddressedTo(r.notices, client)
            == EntryHead(p, world, created == 1, TotalPlayersData(r.game))
               + Announcements(Snapshot(g.vanjects, world, p.bind, walk)) + [SnapshotEnd(world)]
  {
    var p, r := PlayerOf(g, client), Enter(g, client, world, created, walk);
    var start, head := Starting(g, p), Greeting(g, client, world, created, TotalPlayersData(r.game));
    var vs := Snapshot(g.vanjects, world, p.bind, walk);
    var end := Notice({client}, SnapshotEnd(world));
    AddressedHead(g, client, world, created, TotalPlayersData(r.game));
    AddressedAnnouncements(vs, client);
    AddressedOne(end, client);
    AddressedAppend(start, head, client);
    AddressedAppend(start + head, AnnounceAll(vs, {client}), client);
    AddressedAppend(start + head + AnnounceAll(vs, {client}), [end], client);
  }

  lemma LeavingUnheard(g: Game, client: ClientId, order: seq<Id>)
    requires HasClient(g, client)
    requires PlayerOf(g, client).world.Some? ==> Lists(order, Doomed(g, PlayerOf(g, client).bind))
    ensures NoneTo(LeaveWorld(g, client, order).notices, client)
  {
    if PlayerOf(g, client).world.Some? {
      DoomedInside(g, PlayerOf(g, client).bind, order);
      DeletionsTo(g, PlayerOf(g, client).bind, Others(g, client), order);
    }
  }

  /** What the sender hears of a departure and an arrival is what it hears of the arrival. */
  lemma OnlyArrivalHeard(g: Game, e: Event)
    requires e.EnterWorld? && Possible(g, e)
    ensures var a := Arrive(AfterSwitch(g, e.client, e.world), e.client, e.world, e.ySize, e.walk);
            && Step(g, e).game == a.game && Step(g, e).outcome == a.outcome
            && AddressedTo(Step(g, e).notices, e.client) == AddressedTo(a.notices, e.client)
  {
    var leaving := if Switches(g, e.client, e.world) then LeaveWorld(g, e.client, e.order).notices else [];
    var a := Arrive(AfterSwitch(g, e.client, e.world), e.client, e.world, e.ySize, e.walk);
    if Switches(g, e.client, e.world) {
      LeavingUnheard(g, e.client, e.order);
    }
    AddressedNone(leaving, e.client);
    AddressedAppend(leaving, a.notices, e.client);
    assert Step(g, e).notices == leaving + a.notices;
    assert [] + AddressedTo(a.notices, e.client) == AddressedTo(a.notices, e.client);
  }

  lemma SwitchKeeps(g: Game, client: ClientId, world: byte)
    requires HasClient(g, client)
    ensures var p, g1 := PlayerOf(g, client), AfterSwitch(g, client, world);
            g1.worlds == g.worlds && PlayerOf(g1, client).bind == p.bind && PlayerOf(g1, client).status == p.status
  {
    WithPlayerHas(g, client, PlayerOf(g, client).(world := None));
  }

  /** An accepted SET_WORLD is answered, in this order: that the player is now playing, if it was not; the
      world, with 1 exactly if it is new to the game; and between the marks of the snapshot the list of
      players, with the sender in its new world, and the objects. A refused one is not answered. */
  lemma EntryAnswer(g: Game, e: Event)
    requires e.EnterWorld? && Possible(g, e)
    requires forall i :: 0 <= i < |e.walk| ==> e.walk[i] in AfterSwitch(g, e.client, e.world).vanjects
    ensures var r, p, g1 := Step(g, e), PlayerOf(g, e.client), AfterSwitch(g, e.client, e.world);
            var isNew := forall i :: 0 <= i < |g.worlds| ==> g.worlds[i].id != e.world;
            AddressedTo(r.notices, e.client)
            == if r.outcome.Failed? then []
               else EntryHead(p, e.world, isNew, TotalPlayersData(r.game))
                    + Announcements(Snapshot(g1.vanjects, e.world, p.bind, e.walk)) + [SnapshotEnd(e.world)]
  {
    OnlyArrivalHeard(g, e);
    SwitchKeeps(g, e.client, e.world);
    ArriveAnswer(AfterSwitch(g, e.client, e.world), e.client, e.world, e.ySize, e.walk);
  }

  lemma ArriveAnswer(g: Game, client: ClientId, world: byte, ySize: u16, walk: seq<Id>)
    requires HasClient(g, client) && Lists(walk, g.vanjects.Keys)
    requires forall i :: 0 <= i < |walk| ==> walk[i] in g.vanjects
    ensures var r, p := Arrive(g, client, world, ySize, walk), PlayerOf(g, client);
            var isNew := forall i :: 0 <= i < |g.worlds| ==> g.worlds[i].id != world;
            AddressedTo(r.notices, client)
            == if r.outcome.Failed? then []
               else EntryHead(p, world, isNew, TotalPlayersData(r.game))
                    + Announcements(Snapshot(g.vanjects, world, p.bind, walk)) + [SnapshotEnd(world)]
  {
    FirstWorld(g.worlds, world, ySize);
    if WorldOf(g.worlds, world).None? {
      EnterAnswer(g.(worlds := g.worlds + [World(world, ySize)]), client, world, 1, walk);
    } else {
      var i :| 0 <= i < |g.worlds| && g.worlds[i] == WorldOf(g.worlds, world).value;
      assert g.worlds[i].id == world;
      if WorldOf(g.worlds, world).value.ySize == ySize {
        EnterAnswer(g, client, world, 0, walk);
      }
    }
  }

  // ---- the answer to ATTACH_TO_GAME ----

  function Updates(vs: seq<Vanject>): (ms: seq<Message>)
    ensures |ms| == |vs| && forall i :: 0 <= i < |ms| ==> ms[i] == ObjectUpdate(AsSent(vs[i]))
  {
    seq(|vs|, i requires 0 <= i < |vs| => ObjectUpdate(AsSent(vs[i])))
  }

  lemma {:induction false} AddressedUpdates(vs: seq<Vanject>, q: ClientId)
    ensures AddressedTo(AnnounceGlobals(vs, {q}), q) == Updates(vs)
  {
    if vs != [] {
      var first := Notice({q}, ObjectUpdate(AsSent(vs[0])));
      AddressedUpdates(vs[1..], q);
      AddressedAppend([first], AnnounceGlobals(vs[1..], {q}), q);
      AddressedOne(first, q);
    }
  }

  /** The global objects, by their bits, each once. */
  lemma GlobalsByBits(t: map<Id, Vanject>, walk: seq<Id>)
    requires TableOk(t) && Lists(walk, t.Keys)
    requires forall i :: 0 <= i < |walk| ==> walk[i] in t
    ensures forall v :: v in Globals(t, walk) <==> v.id in t && t[v.id] == v && !IsNonGlobalVanject(ToRaw(v.id))
    ensures forall i, j :: 0 <= i < j < |Globals(t, walk)| ==> Globals(t, walk)[i].id != Globals(t, walk)[j].id
  {
    var vs := Values(t, walk);
    FilterMembers(vs, (v: Vanject) => v.id.kind == GLOBAL);
    forall v: Vanject ensures v.id.kind == GLOBAL <==> !IsNonGlobalVanject(ToRaw(v.id)) {
      IdToRawToId(v.id);
      Classifiers(ToRaw(v.id));
    }
    forall v: Vanject | v.id in t && t[v.id] == v ensures v in vs {
      assert v.id in walk;
      var i :| 0 <= i < |walk| && walk[i] == v.id;
      assert vs[i] == v;
    }
    forall i, j | 0 <= i < j < |vs| ensures SignedRank(vs[i].id) != SignedRank(vs[j].id) {
      assert vs[i].id == walk[i] && vs[j].id == walk[j];
      if SignedRank(vs[i].id) == SignedRank(vs[j].id) {
        SignedRankInjective(vs[i].id, vs[j].id);
      }
    }
    FilterKeepsDistinct(vs, (v: Vanject) => v.id.kind == GLOBAL, (v: Vanject) => SignedRank(v.id));
  }

  /** A player that has attached plays nowhere yet, on the least free slot. */
  ghost predicate Attached(g: Game, client: ClientId, g': Game) {
    && HasClient(g', client)
    && var p := PlayerOf(g', client);
       && g'.players == g.players + [Player(client, p.bind, None, None, None, 0, 0, INITIAL, None)]
       && !Used(g.players, p.bind) && (forall b :: 1 <= b < p.bind ==> Used(g.players, b))
       && g'.vanjects == g.vanjects && g'.worlds == g.worlds
  }

  /** ATTACH_TO_GAME is refused exactly if all 30 slots are taken. */
  lemma AttachAccepted(g: Game, e: Event)
    requires GameOk(g) && e.AttachTo? && Possible(g, e)
    ensures Step(g, e).outcome.Failed? <==> |g.players| == 30
    ensures Step(g, e).outcome.Failed? ==> Step(g, e).game == g && Step(g, e).notices == []
    ensures Step(g, e).outcome.Done? ==> Attached(g, e.client, Step(g, e).game)
  {
    FullGame(g.players);
    if Step(g, e).outcome.Done? {
      AttachOk(g, e);
      PlayerAt(Step(g, e).game, e.client, |g.players|);
    }
  }

  lemma AddressedAttach(first: Message, second: Message, globals: seq<Vanject>, q: ClientId, ns: seq<Notice>)
    requires ns == [Notice({q}, first), Notice({q}, second)] + AnnounceGlobals(globals, {q})
    ensures AddressedTo(ns, q) == [first, second] + Updates(globals)
    ensures forall other :: other != q ==> NoneTo(ns, other)
  {
    var a, b := Notice({q}, first), Notice({q}, second);
    AddressedAppend([a, b], AnnounceGlobals(globals, {q}), q);
    AddressedAppend([a], [b], q);
    AddressedOne(a, q);
    AddressedOne(b, q);
    assert [a, b] == [a] + [b];
    AddressedUpdates(globals, q);
    AnnouncedGlobalsTo(globals, {q});
  }

  /** An accepted ATTACH_TO_GAME is answered, to the sender alone, with the game, the new slot and the
      counters to start from, the time, and every global object once. */
  lemma AttachAnswer(g: Game, e: Event)
    requires GameOk(g) && e.AttachTo? && Possible(g, e) && Step(g, e).outcome.Done?
    requires forall i :: 0 <= i < |e.walk| ==> e.walk[i] in g.vanjects
    ensures Attached(g, e.client, Step(g, e).game)
    ensures var r, slot := Step(g, e), PlayerOf(Step(g, e).game, e.client).bind;
            var first := AttachResponse(g.id, g.configured, e.birth, slot, Offsets(e.walk, slot as int));
            AddressedTo(r.notices, e.client) == [first, ZTime(e.unix)] + Updates(Globals(g.vanjects, e.walk))
    ensures forall q :: q != e.client ==> NoneTo(Step(g, e).notices, q)
  {
    AttachAccepted(g, e);
    var slot := FreeSlot(g.players, MIN_PLAYER_ID).value;
    LeastIsUnique(g.players, PlayerOf(Step(g, e).game, e.client).bind, slot);
    var first := AttachResponse(g.id, g.configured, e.birth, slot, Offsets(e.walk, slot as int));
    AddressedAttach(first, ZTime(e.unix), Globals(g.vanjects, e.walk), e.client, Step(g, e).notices);
  }

  lemma LeastIsUnique(players: seq<Player>, a: byte, b: byte)
    requires 1 <= a && 1 <= b && !Used(players, a) && !Used(players, b)
    requires forall c :: 1 <= c < a ==> Used(players, c)
    requires forall c :: 1 <= c < b ==> Used(players, c)
    ensures a == b
  {
  }

  // ---- why a message is refused ----

  /** The refusals of a deletion: another's object, and the marker of an old transfer on one's own item. */
  lemma DeletionRefusals(g: Game, e: Event)
    requires GameOk(g) && e.Delete? && Possible(g, e)
    ensures Step(g, e).outcome.Failed? ==>
              && e.id in g.vanjects
              && var other := g.vanjects[e.id].owner != PlayerOf(g, e.client).bind;
                 Step(g, e).outcome == Failed(if other then NotOwner(e.id) else LegacyItemTransferDelete(e.id))
  {
  }

  /** The refusals of an update that do not look at the sender: an unknown object, and too few bytes. */
  lemma UpdateRefusals(g: Game, e: Event)
    requires GameOk(g) && e.Update? && Possible(g, e)
    ensures var id := FromRaw(FromLe32(e.data));
            && (id !in g.vanjects ==> Step(g, e).outcome == Failed(VanjectNotFound(id)))
            && (id in g.vanjects && UpdateRefused(g.vanjects[id], id, PlayerOf(g, e.client)).None?
                && |e.data| < (if GetVanjectType(FromLe32(e.data)) == 0x9_0000 then 14 else 12) ==>
                  Step(g, e).outcome == Failed(VanjectParse(SliceTooSmall)))
  {
    RawToIdToRaw(FromLe32(e.data));
    TypeCode(FromRaw(FromLe32(e.data)));
  }

  /** The refusals of moves: out of a world that one is not in, into one of another size, into a full game. */
  lemma MoveRefusals(g: Game, e: Event)
    requires GameOk(g) && Possible(g, e)
    ensures e.Leave? && PlayerOf(g, e.client).world.None? ==> Step(g, e).outcome == Failed(PlayerWorldEmpty)
    ensures e.Leave? && PlayerOf(g, e.client).world.Some? ==> Step(g, e).outcome == Done
    ensures e.Close? ==> Step(g, e).outcome == Done
    ensures e.AttachTo? && Step(g, e).outcome.Failed? ==> Step(g, e).outcome == Failed(GameFull)
    ensures e.EnterWorld? && Step(g, e).outcome.Failed? ==>
              exists w :: w in g.worlds && w.id == e.world
                          && Step(g, e).outcome == Failed(InvalidWorldSize(w.ySize, e.ySize))
  {
    if e.EnterWorld? && Step(g, e).outcome.Failed? {
      SwitchKeeps(g, e.client, e.world);
      assert WorldOf(g.worlds, e.world).value in g.worlds;
    }
  }

  // ---- settings ----

  /** Names, bodies and positions are as their owner sets them, and a game once configured stays so. */
  lemma SettingsStep(g: Game, e: Event)
    requires GameOk(g) && Possible(g, e)
    ensures After(g, e).configured <==> g.configured || e.Configure?
    ensures e.Profile? ==> HasClient(After(g, e), e.client)
    ensures e.Profile? ==>
              PlayerOf(After(g, e), e.client)
              == PlayerOf(g, e.client).(name := e.name, body := e.body, x := e.x, y := e.y)
  {
    if e.Profile? {
      OwnUpdated(g, e, PlayerOf(g, e.client).(name := e.name, body := e.body, x := e.x, y := e.y));
    } else if e.Close? {
      WithPlayerHas(g, e.client, PlayerOf(g, e.client).(world := None));
    }
  }
}
