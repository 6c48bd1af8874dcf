/** What a player knows about who plays where, from the notices about players alone. */
module Rosters {
  import opened Wrappers
  import opened Bytes
  import opened Seqs
  import opened Vanjects
  import opened Messages
  import opened Games
  import opened Handlers
  import opened Steps
  import opened Snapshots
  import opened Servers

  /** A slot: status 1 is playing, 2 is finished; world 0 is none. */
  datatype Seat = Seat(status: byte, world: byte)

  type Roster = map<byte, Seat>

  // ---- what a client does with the notices ----

  /** A status makes a slot known; the world of an unknown slot means nothing. */
  function Track(r: Roster, m: Message): Roster {
    match m
    case PlayersStatus(b, status) => r[b := Seat(status, if b in r then r[b].world else 0)]
    case PlayersWorld(b, world) => if b in r then r[b := Seat(r[b].status, world)] else r
    case _ => r
  }

  function TrackAll(r: Roster, ms: seq<Message>): Roster {
    if ms == [] then r
    else
      var k := |ms| - 1;
      Track(TrackAll(r, ms[..k]), ms[k])
  }

  /** All that a step sends to the player. */
  ghost function Tracked(r: Roster, g: Game, e: Event, q: ClientId): Roster
    requires Possible(g, e)
  {
    TrackAll(r, AddressedTo(Step(g, e).notices, q))
  }

  lemma {:induction false} TrackAppend(r: Roster, xs: seq<Message>, ys: seq<Message>)
    ensures TrackAll(r, xs + ys) == TrackAll(TrackAll(r, xs), ys)
    decreases ys
  {
    if ys == [] {
      assert xs + ys == xs;
    } else {
      var k := |ys| - 1;
      TrackAppend(r, xs, ys[..k]);
      assert (xs + ys)[..|xs| + k] == xs + ys[..k] && (xs + ys)[|xs| + k] == ys[k];
    }
  }

  lemma TrackOne(r: Roster, m: Message)
    ensures TrackAll(r, [m]) == Track(r, m)
  {
    assert [m][..0] == [];
  }

  /** Notices none of which is about a player. */
  ghost predicate NoSeats(ns: seq<Notice>) {
    forall i :: 0 <= i < |ns| ==> !ns[i].message.PlayersStatus? && !ns[i].message.PlayersWorld?
  }

  lemma {:induction false} TrackNothing(r: Roster, ns: seq<Notice>, q: ClientId)
    requires NoSeats(ns) || NoneTo(ns, q)
    ensures TrackAll(r, AddressedTo(ns, q)) == r
    decreases ns
  {
    if ns != [] {
      var k := |ns| - 1;
      TrackNothing(r, ns[..k], q);
      TrackSplit(r, ns[..k], [ns[k]], q);
      TrackNotice(r, ns[k], q);
      assert ns[..k] + [ns[k]] == ns;
    }
  }

  lemma TrackSplit(r: Roster, xs: seq<Notice>, ys: seq<Notice>, q: ClientId)
    ensures TrackAll(r, AddressedTo(xs + ys, q)) == TrackAll(TrackAll(r, AddressedTo(xs, q)), AddressedTo(ys, q))
  {
    AddressedAppend(xs, ys, q);
    TrackAppend(r, AddressedTo(xs, q), AddressedTo(ys, q));
  }

  lemma TrackNotice(r: Roster, n: Notice, q: ClientId)
    ensures TrackAll(r, AddressedTo([n], q)) == if q in n.to then Track(r, n.message) else r
  {
    AddressedOne(n, q);
    TrackOne(r, n.message);
  }

  // ---- how it is ----

  function SeatOfPlayer(p: Player): Seat {
    if p.status == GAMING then Seat(1, if p.world.Some? then p.world.value else 0) else Seat(2, 0)
  }

  /** Whether somebody plays on the slot, and where. */
  function SeatOf(g: Game, b: byte): Seat {
    match IndexOfBind(g.players, b)
    case None => Seat(2, 0)
    case Some(i) => SeatOfPlayer(g.players[i])
  }

  /** Nobody is finished and still there, and only who plays is in a world. */
  ghost predicate StatusOk(g: Game) {
    forall i :: 0 <= i < |g.players| ==>
      g.players[i].status != FINISHED && (g.players[i].world.Some? ==> g.players[i].status == GAMING)
  }

  /** Of the slots that are known, and not the player's own, the roster says how it is. */
  ghost predicate Knows(r: Roster, g: Game, own: byte) {
    forall b :: b in r && b != own ==> r[b] == SeatOf(g, b)
  }

  lemma SeatAt(g: Game, i: nat)
    requires DistinctBinds(g.players) && i < |g.players|
    ensures SeatOf(g, g.players[i].bind) == SeatOfPlayer(g.players[i])
  {
    var k := IndexOfBind(g.players, g.players[i].bind).value;
    assert g.players[k].bind == g.players[i].bind && k == i;
  }

  /** The slots after one player changed. */
  lemma SeatUpdated(g: Game, client: ClientId, p: Player, g': Game, b: byte)
    requires GameOk(g) && GameOk(g') && HasClient(g, client) && p.bind == PlayerOf(g, client).bind
    requires g'.players == WithPlayer(g, client, p).players
    ensures SeatOf(g', b) == if b == p.bind then SeatOfPlayer(p) else SeatOf(g, b)
  {
    var k := IndexOf(g.players, client).value;
    assert g'.players[k] == p;
    if b == p.bind {
      SeatAt(g', k);
    } else if IndexOfBind(g.players, b).Some? {
      var i := IndexOfBind(g.players, b).value;
      assert i != k && g'.players[i] == g.players[i];
      SeatAt(g', i);
    }
  }

  /** The slots after a player is gone. */
  lemma SeatGone(g: Game, client: ClientId, g': Game, b: byte)
    requires GameOk(g) && GameOk(g') && HasClient(g, client)
    requires g'.players == Filter(g.players, (o: Player) => o.client != client)
    ensures SeatOf(g', b) == if b == PlayerOf(g, client).bind then Seat(2, 0) else SeatOf(g, b)
  {
    var k := IndexOf(g.players, client).value;
    FilterOne(g.players, (o: Player) => o.client != client, k);
    assert g'.players == g.players[..k] + g.players[k + 1..];
    if b != PlayerOf(g, client).bind && IndexOfBind(g.players, b).Some? {
      var i := IndexOfBind(g.players, b).value;
      var j := if i < k then i else i - 1;
      assert i != k && g'.players[j] == g.players[i];
      SeatAt(g', j);
    }
  }

  /** The slots after a player has joined, who plays nowhere yet. */
  lemma SeatJoined(g: Game, p: Player, g': Game, b: byte)
    requires GameOk(g) && GameOk(g') && g'.players == g.players + [p] && p.status == INITIAL
    ensures SeatOf(g', b) == SeatOf(g, b)
  {
    if IndexOfBind(g.players, b).Some? {
      var i := IndexOfBind(g.players, b).value;
      assert g'.players[i] == g.players[i];
      SeatAt(g', i);
    } else if IndexOfBind(g'.players, b).Some? {
      var i := IndexOfBind(g'.players, b).value;
      assert i == |g.players| && g'.players[i] == p;
    }
  }

  // ---- what moves tell ----

  lemma {:induction false} DeletionsAreNoSeats(g: Game, bind: byte, to: set<ClientId>, order: seq<Id>)
    requires forall i :: 0 <= i < |order| ==> order[i] in g.vanjects
    ensures NoSeats(DeleteNotices(g, bind, to, order))
  {
    if order != [] {
      DeletionsAreNoSeats(g, bind, to, order[1..]);
    }
  }

  lemma {:induction false} AnnouncedAreNoSeats(vs: seq<Vanject>, to: set<ClientId>)
    ensures NoSeats(AnnounceAll(vs, to))
  {
    if vs != [] {
      AnnouncedAreNoSeats(vs[1..], to);
    }
  }

  /** The others hear that the player is in no world. */
  lemma DepartureTracked(r: Roster, g: Game, client: ClientId, order: seq<Id>, q: ClientId)
    requires GameOk(g) && HasClient(g, client) && HasClient(g, q) && PlayerOf(g, client).world.Some?
    requires Lists(order, Doomed(g, PlayerOf(g, client).bind))
    ensures TrackAll(r, AddressedTo(LeaveWorld(g, client, order).notices, q))
            == if q == client then r else Track(r, PlayersWorld(PlayerOf(g, client).bind, 0))
  {
    var bind, to := PlayerOf(g, client).bind, Others(g, client);
    DoomedInside(g, bind, order);
    DeletionsAreNoSeats(g, bind, to, order);
    TrackNothing(r, DeleteNotices(g, bind, to, order), q);
    TrackSplit(r, DeleteNotices(g, bind, to, order), [Notice(to, PlayersWorld(bind, 0))], q);
    TrackNotice(r, Notice(to, PlayersWorld(bind, 0)), q);
    OtherHears(g, client, q);
  }

  lemma OtherHears(g: Game, client: ClientId, q: ClientId)
    requires HasClient(g, q)
    ensures q in Everyone(g) && (q in Others(g, client) <==> q != client)
  {
    assert PlayerOf(g, q) in g.players;
  }

  lemma StartingTracked(r: Roster, g: Game, client: ClientId, q: ClientId)
    requires HasClient(g, client) && HasClient(g, q)
    ensures var p := PlayerOf(g, client);
            TrackAll(r, AddressedTo(Starting(g, p), q))
            == if p.status != GAMING then Track(r, PlayersStatus(p.bind, 1)) else r
  {
    var p := PlayerOf(g, client);
    OtherHears(g, client, q);
    TrackNotice(r, Notice(Everyone(g), PlayersStatus(p.bind, StatusCode(GAMING))), q);
  }

  lemma GreetingTracked(r: Roster, g: Game, client: ClientId, world: byte, created: byte, list: seq<byte>, q: ClientId)
    requires HasClient(g, client) && HasClient(g, q)
    ensures TrackAll(r, AddressedTo(Greeting(g, client, world, created, list), q))
            == if q == client then r else Track(r, PlayersWorld(PlayerOf(g, client).bind, world))
  {
    var ns := Greeting(g, client, world, created, list);
    OtherHears(g, client, q);
    assert ns == [ns[0]] + ns[1..];
    TrackSplit(r, [ns[0]], ns[1..], q);
    TrackNotice(r, ns[0], q);
    TrackNothing(TrackAll(r, AddressedTo([ns[0]], q)), ns[1..], q);
  }

  /** What is heard of an entry: that the player plays, if it did not, and where. */
  function Entered(r: Roster, p: Player, world: byte, mine: bool): Roster {
    var started := if p.status != GAMING then Track(r, PlayersStatus(p.bind, 1)) else r;
    if mine then started else Track(started, PlayersWorld(p.bind, world))
  }

  lemma SnapshotTracked(r: Roster, vs: seq<Vanject>, client: ClientId, world: byte, q: ClientId)
    ensures TrackAll(r, AddressedTo(AnnounceAll(vs, {client}) + [Notice({client}, SnapshotEnd(world))], q)) == r
  {
    AnnouncedAreNoSeats(vs, {client});
    TrackNothing(r, AnnounceAll(vs, {client}) + [Notice({client}, SnapshotEnd(world))], q);
  }

  lemma HeadTracked(r: Roster, g: Game, client: ClientId, world: byte, created: byte, list: seq<byte>, q: ClientId)
    requires HasClient(g, client) && HasClient(g, q)
    ensures var head := Starting(g, PlayerOf(g, client)) + Greeting(g, client, world, created, list);
            TrackAll(r, AddressedTo(head, q)) == Entered(r, PlayerOf(g, client), world, q == client)
  {
    var start, rest := Starting(g, PlayerOf(g, client)), Greeting(g, client, world, created, list);
    StartingTracked(r, g, client, q);
    GreetingTracked(TrackAll(r, AddressedTo(start, q)), g, client, world, created, list, q);
    TrackSplit(r, start, rest, q);
  }

  /** The notices of an entry: the head, and then nothing about players. */
  lemma EntryNotices(g: Game, client: ClientId, world: byte, created: byte, walk: seq<Id>) returns (vs: seq<Vanject>)
    requires HasClient(g, client) && Lists(walk, g.vanjects.Keys)
    ensures var p := PlayerOf(g, client);
            var list := TotalPlayersData(WithPlayer(g, client, Placed(p, world)));
            Enter(g, client, world, created, walk).notices
            == (Starting(g, p) + Greeting(g, client, world, created, list))
               + (AnnounceAll(vs, {client}) + [Notice({client}, SnapshotEnd(world))])
  {
    WalkInside(g.vanjects, walk);
    vs := Snapshot(g.vanjects, world, PlayerOf(g, client).bind, walk);
  }

  lemma EntryTracked(r: Roster, g: Game, client: ClientId, world: byte, created: byte, walk: seq<Id>, q: ClientId)
    requires GameOk(g) && HasClient(g, client) && HasClient(g, q) && Lists(walk, g.vanjects.Keys)
    ensures TrackAll(r, AddressedTo(Enter(g, client, world, created, walk).notices, q))
            == Entered(r, PlayerOf(g, client), world, q == client)
  {
    var p, list := PlayerOf(g, client), TotalPlayersData(WithPlayer(g, client, Placed(PlayerOf(g, client), world)));
    var vs := EntryNotices(g, client, world, created, walk);
    var head := Starting(g, p) + Greeting(g, client, world, created, list);
    var rest := AnnounceAll(vs, {client}) + [Notice({client}, SnapshotEnd(world))];
    HeadTracked(r, g, client, world, created, list, q);
    SnapshotTracked(TrackAll(r, AddressedTo(head, q)), vs, client, world, q);
    TrackSplit(r, head, rest, q);
  }

  lemma ArrivalTracked(r: Roster, g: Game, client: ClientId, world: byte, ySize: u16, walk: seq<Id>, q: ClientId)
    requires GameOk(g) && HasClient(g, client) && HasClient(g, q) && Lists(walk, g.vanjects.Keys)
    ensures var a := Arrive(g, client, world, ySize, walk);
            TrackAll(r, AddressedTo(a.notices, q))
            == if a.outcome.Done? then Entered(r, PlayerOf(g, client), world, q == client) else r
  {
    if WorldOf(g.worlds, world).None? {
      EntryTracked(r, g.(worlds := g.worlds + [World(world, ySize)]), client, world, 1, walk, q);
    } else if WorldOf(g.worlds, world).value.ySize == ySize {
      EntryTracked(r, g, client, world, 0, walk, q);
    }
  }

  // ---- one lemma per move ----

  /** The player stays in the game, on its slot. */
  ghost predicate Attending(g: Game, q: ClientId, own: byte) {
    HasClient(g, q) && PlayerOf(g, q).bind == own
  }

  ghost predicate Follows(r: Roster, g: Game, q: ClientId, own: byte) {
    GameOk(g) && StatusOk(g) && Attending(g, q, own) && Knows(r, g, own)
  }

  lemma OwnSlot(g: Game, client: ClientId, q: ClientId)
    requires GameOk(g) && HasClient(g, client) && HasClient(g, q)
    ensures PlayerOf(g, client).bind == PlayerOf(g, q).bind <==> client == q
  {
    if PlayerOf(g, client).bind == PlayerOf(g, q).bind {
      DistinctKey(g.players, (o: Player) => o.bind as int, PlayerOf(g, client), PlayerOf(g, q));
    }
  }

  lemma StatusUpdated(g: Game, client: ClientId, p: Player, g': Game)
    requires StatusOk(g) && HasClient(g, client) && g'.players == WithPlayer(g, client, p).players
    requires p.status != FINISHED && (p.world.Some? ==> p.status == GAMING)
    ensures StatusOk(g')
  {
  }

  lemma StatusOfPlayer(g: Game, client: ClientId)
    requires StatusOk(g) && HasClient(g, client)
    ensures PlayerOf(g, client).status != FINISHED
    ensures PlayerOf(g, client).world.Some? ==> PlayerOf(g, client).status == GAMING
  {
    var k := IndexOf(g.players, client).value;
    assert g.players[k] == PlayerOf(g, client);
  }

  /** A change of one player, as far as it concerns its slot, and what is heard of it. */
  lemma KnowsUpdated(r: Roster, g: Game, client: ClientId, p: Player, g': Game, r': Roster, own: byte)
    requires GameOk(g) && GameOk(g') && HasClient(g, client) && p.bind == PlayerOf(g, client).bind
    requires g'.players == WithPlayer(g, client, p).players && Knows(r, g, own)
    requires forall b :: b != p.bind ==> (b in r' <==> b in r) && (b in r ==> r'[b] == r[b])
    requires p.bind in r' && p.bind != own ==> r'[p.bind] == SeatOfPlayer(p)
    ensures Knows(r', g', own)
  {
    forall b | b in r' && b != own ensures r'[b] == SeatOf(g', b) {
      SeatUpdated(g, client, p, g', b);
    }
  }

  lemma AfterDeparture(r: Roster, g: Game, client: ClientId, order: seq<Id>, q: ClientId, own: byte)
    requires Follows(r, g, q, own) && HasClient(g, client) && PlayerOf(g, client).world.Some?
    requires Lists(order, Doomed(g, PlayerOf(g, client).bind))
    ensures var r' := TrackAll(r, AddressedTo(LeaveWorld(g, client, order).notices, q));
            r.Keys <= r'.Keys && Follows(r', Left(g, client), q, own)
  {
    var p := PlayerOf(g, client).(world := None);
    var g', r' := Left(g, client), TrackAll(r, AddressedTo(LeaveWorld(g, client, order).notices, q));
    var e := Leave(client, order);
    GameOkStep(g, e);
    assert After(g, e) == g';
    StatusOfPlayer(g, client);
    StatusUpdated(g, client, p, g');
    DepartureTracked(r, g, client, order, q);
    OwnSlot(g, client, q);
    if p.bind in r && p.bind != own {
      KnownSeat(r, g, client, own);
    }
    KnowsUpdated(r, g, client, p, g', r', own);
    StillAttending(g, e, q, own);
  }

  lemma KnownSeat(r: Roster, g: Game, client: ClientId, own: byte)
    requires GameOk(g) && HasClient(g, client) && Knows(r, g, own)
    requires PlayerOf(g, client).bind in r && PlayerOf(g, client).bind != own
    ensures r[PlayerOf(g, client).bind] == SeatOfPlayer(PlayerOf(g, client))
  {
    SeatAt(g, IndexOf(g.players, client).value);
  }

  /** The player does not close or lose its connection, and nobody takes over its slot. */
  ghost predicate Attends(e: Event, q: ClientId, own: byte) {
    (e.client == q ==> !e.Close?) && (e.Restore? ==> e.bind != own)
  }

  lemma StillAttending(g: Game, e: Event, q: ClientId, own: byte)
    requires GameOk(g) && Attending(g, q, own) && Possible(g, e) && Attends(e, q, own)
    ensures Attending(After(g, e), q, own)
  {
    if e.client == q {
      OwnPlayerKept(g, e);
    } else {
      OtherPlayerKept(g, e, q);
    }
  }

  lemma EnteredSeat(r: Roster, p: Player, world: byte)
    requires p.status == GAMING ==> p.bind in r ==> r[p.bind].status == 1
    ensures var r' := Entered(r, p, world, false);
            && (p.bind in r' ==> r'[p.bind] == Seat(1, world)) && (p.bind in r' <==> p.bind in r || p.status != GAMING)
            && forall b :: b != p.bind ==> (b in r' <==> b in r) && (b in r ==> r'[b] == r[b])
  {
  }

  /** Who knew how it was, and hears of an entry, knows how it is. */
  lemma KnowsEntered(r: Roster, g: Game, client: ClientId, world: byte, g': Game, q: ClientId, own: byte)
    requires Follows(r, g, q, own) && GameOk(g') && HasClient(g, client)
    requires g'.players == WithPlayer(g, client, PlayerOf(g, client).(world := Some(world), status := GAMING)).players
    ensures var p, r' := PlayerOf(g, client), Entered(r, PlayerOf(g, client), world, q == client);
            && r.Keys <= r'.Keys && StatusOk(g') && Knows(r', g', own)
            && (p.status != GAMING ==> p.bind in r')
  {
    var p := PlayerOf(g, client);
    StatusUpdated(g, client, p.(world := Some(world), status := GAMING), g');
    OwnSlot(g, client, q);
    if p.bind in r && p.bind != own {
      KnownSeat(r, g, client, own);
    }
    if p.bind != own {
      EnteredSeat(r, p, world);
    }
    KnowsUpdated(r, g, client, p.(world := Some(world), status := GAMING), g', Entered(r, p, world, q == client), own);
  }

  /** An arrival that is not preceded by a departure. */
  lemma AfterArrival(r: Roster, g: Game, client: ClientId, world: byte, ySize: u16, walk: seq<Id>, q: ClientId,
                     own: byte)
    requires Follows(r, g, q, own) && HasClient(g, client) && Lists(walk, g.vanjects.Keys)
    requires !Switches(g, client, world)
    ensures var a := Arrive(g, client, world, ySize, walk);
            var r' := TrackAll(r, AddressedTo(a.notices, q));
            && r.Keys <= r'.Keys && Follows(r', a.game, q, own)
            && (a.outcome.Done? && PlayerOf(g, client).status != GAMING ==> PlayerOf(g, client).bind in r')
  {
    var e, a := EnterWorld(client, world, ySize, [], walk), Arrive(g, client, world, ySize, walk);
    assert Step(g, e).game == a.game && Step(g, e).outcome == a.outcome;
    GameOkStep(g, e);
    StillAttending(g, e, q, own);
    ArrivalTracked(r, g, client, world, ySize, walk, q);
    SetWorldParts(g, client, world, ySize, [], walk);
    if a.outcome.Done? {
      KnowsEntered(r, g, client, world, a.game, q, own);
    }
  }

  lemma AfterEntry(r: Roster, g: Game, e: Event, q: ClientId, own: byte)
    requires Follows(r, g, q, own) && e.EnterWorld? && Possible(g, e)
    ensures var r' := Tracked(r, g, e, q);
            && r.Keys <= r'.Keys && Follows(r', After(g, e), q, own)
            && (Step(g, e).outcome.Done? && PlayerOf(g, e.client).status != GAMING ==> PlayerOf(g, e.client).bind in r')
  {
    var g1, p := AfterSwitch(g, e.client, e.world), PlayerOf(g, e.client);
    var leaving := if Switches(g, e.client, e.world) then LeaveWorld(g, e.client, e.order).notices else [];
    var a := Arrive(g1, e.client, e.world, e.ySize, e.walk);
    if Switches(g, e.client, e.world) {
      AfterDeparture(r, g, e.client, e.order, q, own);
      WithPlayerHas(g, e.client, p.(world := None));
    }
    AfterArrival(TrackAll(r, AddressedTo(leaving, q)), g1, e.client, e.world, e.ySize, e.walk, q, own);
    TrackSplit(r, leaving, a.notices, q);
    assert Step(g, e).notices == leaving + a.notices;
  }

  /** What is heard of a player that closes, once it is in no world. */
  lemma FinishTracked(r: Roster, g: Game, client: ClientId, q: ClientId)
    requires HasClient(g, client) && HasClient(g, q) && q != client
    ensures var p := PlayerOf(g, client);
            TrackAll(r, AddressedTo(FinishNotices(g, client), q))
            == if p.status == GAMING then Track(r, PlayersStatus(p.bind, 2)) else r
  {
    var p := PlayerOf(g, client);
    OtherHears(g, client, q);
    TrackNotice(r, Notice(Others(g, client), PlayersStatus(p.bind, StatusCode(FINISHED))), q);
  }

  lemma KnowsGone(r: Roster, g: Game, client: ClientId, g': Game, r': Roster, own: byte)
    requires GameOk(g) && GameOk(g') && HasClient(g, client) && Knows(r, g, own)
    requires g'.players == Filter(g.players, (o: Player) => o.client != client)
    requires forall b :: b != PlayerOf(g, client).bind ==> (b in r' <==> b in r) && (b in r ==> r'[b] == r[b])
    requires PlayerOf(g, client).bind in r' ==> r'[PlayerOf(g, client).bind] == Seat(2, 0)
    ensures Knows(r', g', own)
  {
    forall b | b in r' && b != own ensures r'[b] == SeatOf(g', b) {
      SeatGone(g, client, g', b);
    }
  }

  lemma StatusGone(g: Game, client: ClientId, g': Game)
    requires StatusOk(g) && g'.players == Filter(g.players, (o: Player) => o.client != client)
    ensures StatusOk(g')
  {
    FilterMembers(g.players, (o: Player) => o.client != client);
    forall j | 0 <= j < |g'.players|
      ensures g'.players[j].status != FINISHED && (g'.players[j].world.Some? ==> g'.players[j].status == GAMING)
    {
      assert g'.players[j] in g'.players;
      var i :| 0 <= i < |g.players| && g.players[i] == g'.players[j];
    }
  }

  lemma FinishedSeat(r: Roster, p: Player, r': Roster)
    requires r' == if p.status == GAMING then Track(r, PlayersStatus(p.bind, 2)) else r
    requires p.world.None? && (p.bind in r ==> r[p.bind] == SeatOfPlayer(p))
    ensures r.Keys <= r'.Keys && (p.bind in r' ==> r'[p.bind] == Seat(2, 0))
    ensures forall b :: b != p.bind ==> (b in r' <==> b in r) && (b in r ==> r'[b] == r[b])
  {
  }

  /** The roster of another player after a close, once the departure is heard. */
  lemma AfterFinish(r: Roster, g: Game, client: ClientId, g': Game, q: ClientId, own: byte)
    requires Follows(r, g, q, own) && HasClient(g, client) && client != q && PlayerOf(g, client).world.None?
    requires GameOk(g') && g'.players == Filter(g.players, (o: Player) => o.client != client)
    ensures var r' := TrackAll(r, AddressedTo(FinishNotices(g, client), q));
            r.Keys <= r'.Keys && StatusOk(g') && Knows(r', g', own)
  {
    var r' := TrackAll(r, AddressedTo(FinishNotices(g, client), q));
    FinishTracked(r, g, client, q);
    StatusGone(g, client, g');
    OwnSlot(g, client, q);
    if PlayerOf(g, client).bind in r {
      KnownSeat(r, g, client, own);
    }
    FinishedSeat(r, PlayerOf(g, client), r');
    KnowsGone(r, g, client, g', r', own);
  }

  lemma AfterClose(r: Roster, g: Game, e: Event, q: ClientId, own: byte)
    requires Follows(r, g, q, own) && e.Close? && Possible(g, e) && e.client != q
    ensures r.Keys <= Tracked(r, g, e, q).Keys && Follows(Tracked(r, g, e, q), After(g, e), q, own)
  {
    var p, left := PlayerOf(g, e.client), LeaveWorld(g, e.client, e.order);
    WithPlayerHas(g, e.client, p.(world := None));
    if p.world.Some? {
      AfterDeparture(r, g, e.client, e.order, q, own);
    }
    var r1 := TrackAll(r, AddressedTo(left.notices, q));
    GameOkStep(g, e);
    StillAttending(g, e, q, own);
    LeftThenGone(g, e);
    AfterFinish(r1, left.game, e.client, After(g, e), q, own);
    TrackSplit(r, left.notices, FinishNotices(left.game, e.client), q);
  }

  lemma LeftThenGone(g: Game, e: Event)
    requires GameOk(g) && e.Close? && Possible(g, e)
    ensures var left := LeaveWorld(g, e.client, e.order).game;
            && HasClient(left, e.client) && PlayerOf(left, e.client).world.None?
            && After(g, e).players == Filter(left.players, (o: Player) => o.client != e.client)
  {
    WithPlayerHas(g, e.client, PlayerOf(g, e.client).(world := None));
  }

  // ---- everything else ----

  lemma {:induction false} GlobalsAreNoSeats(vs: seq<Vanject>, to: set<ClientId>)
    ensures NoSeats(AnnounceGlobals(vs, to))
  {
    if vs != [] {
      GlobalsAreNoSeats(vs[1..], to);
    }
  }

  lemma OthersTellNothing(g: Game, e: Event)
    requires Possible(g, e) && !e.Leave? && !e.EnterWorld? && !e.Close?
    ensures NoSeats(Step(g, e).notices)
  {
    if e.AttachTo? && Step(g, e).outcome.Done? {
      WalkInside(g.vanjects, e.walk);
      GlobalsAreNoSeats(Globals(g.vanjects, e.walk), {e.client});
    }
  }

  /** The slots of two lists of players that differ in nothing that a seat shows. */
  lemma SeatsAlike(g: Game, g': Game, b: byte)
    requires GameOk(g) && GameOk(g') && Alike(g, g')
    ensures SeatOf(g', b) == SeatOf(g, b)
  {
    if IndexOfBind(g.players, b).Some? {
      var i := IndexOfBind(g.players, b).value;
      assert g'.players[i].bind == b;
      SeatAt(g', i);
    }
  }

  ghost predicate Alike(g: Game, g': Game) {
    && |g'.players| == |g.players|
    && forall i :: 0 <= i < |g.players| ==>
         && g'.players[i].bind == g.players[i].bind && g'.players[i].world == g.players[i].world
         && g'.players[i].status == g.players[i].status
  }

  lemma AlikeUpdated(g: Game, client: ClientId, p: Player, g': Game)
    requires HasClient(g, client) && g'.players == WithPlayer(g, client, p).players
    requires var o := PlayerOf(g, client); p.bind == o.bind && p.world == o.world && p.status == o.status
    ensures Alike(g, g')
  {
  }

  lemma ObjectsAlike(g: Game, e: Event)
    requires GameOk(g) && Possible(g, e) && (e.Create? || e.Update? || e.Delete? || e.TransferItem?)
    ensures Alike(g, After(g, e))
  {
    if e.Create? && After(g, e).players != g.players {
      AlikeUpdated(g, e.client, PlayerOf(g, e.client).(x := e.v.x, y := e.v.y, body := BodyOf(e.v.body)), After(g, e));
    }
  }

  /** Other messages leave slots, worlds and statuses of the players alone. */
  lemma PlayersAlike(g: Game, e: Event)
    requires GameOk(g) && Possible(g, e) && !e.Leave? && !e.EnterWorld? && !e.Close? && !e.AttachTo?
    ensures Alike(g, After(g, e))
  {
    if e.Create? || e.Update? || e.Delete? || e.TransferItem? {
      ObjectsAlike(g, e);
    }
  }

  lemma AfterOther(r: Roster, g: Game, e: Event, q: ClientId, own: byte)
    requires Follows(r, g, q, own) && Possible(g, e) && Attends(e, q, own)
    requires !e.Leave? && !e.EnterWorld? && !e.Close? && !e.AttachTo?
    ensures Tracked(r, g, e, q) == r && Follows(r, After(g, e), q, own)
  {
    var g' := After(g, e);
    OthersTellNothing(g, e);
    TrackNothing(r, Step(g, e).notices, q);
    GameOkStep(g, e);
    StillAttending(g, e, q, own);
    PlayersAlike(g, e);
    forall b | b in r && b != own ensures r[b] == SeatOf(g', b) {
      SeatsAlike(g, g', b);
    }
  }

  lemma KnowsJoined(r: Roster, g: Game, p: Player, g': Game, own: byte)
    requires GameOk(g) && GameOk(g') && StatusOk(g) && Knows(r, g, own)
    requires g'.players == g.players + [p] && p.status == INITIAL && p.world.None?
    ensures StatusOk(g') && Knows(r, g', own)
  {
    forall b | b in r && b != own ensures r[b] == SeatOf(g', b) {
      SeatJoined(g, p, g', b);
    }
  }

  lemma AfterAttach(r: Roster, g: Game, e: Event, q: ClientId, own: byte)
    requires Follows(r, g, q, own) && Possible(g, e) && e.AttachTo?
    ensures Tracked(r, g, e, q) == r && Follows(r, After(g, e), q, own)
  {
    OthersTellNothing(g, e);
    TrackNothing(r, Step(g, e).notices, q);
    GameOkStep(g, e);
    StillAttending(g, e, q, own);
    if Step(g, e).outcome.Done? {
      KnowsJoined(r, g, NewPlayer(e.client, FreeSlot(g.players, MIN_PLAYER_ID).value), After(g, e), own);
    }
  }

  lemma AfterLeave(r: Roster, g: Game, e: Event, q: ClientId, own: byte)
    requires Follows(r, g, q, own) && e.Leave? && Possible(g, e)
    ensures r.Keys <= Tracked(r, g, e, q).Keys && Follows(Tracked(r, g, e, q), After(g, e), q, own)
  {
    if PlayerOf(g, e.client).world.Some? {
      AfterDeparture(r, g, e.client, e.order, q, own);
    }
  }

  // ---- steps and runs ----

  /** The player that starts to play with this step. */
  ghost predicate Starts(g: Game, e: Event) {
    && e.EnterWorld? && Possible(g, e) && Step(g, e).outcome.Done? && PlayerOf(g, e.client).status != GAMING
  }

  /** Every step keeps what is known right; and who starts to play is known. */
  lemma RosterStep(r: Roster, g: Game, e: Event, q: ClientId, own: byte)
    requires Follows(r, g, q, own) && Possible(g, e) && Attends(e, q, own)
    ensures r.Keys <= Tracked(r, g, e, q).Keys && Follows(Tracked(r, g, e, q), After(g, e), q, own)
    ensures Starts(g, e) ==> PlayerOf(g, e.client).bind in Tracked(r, g, e, q)
  {
    if e.Leave? {
      AfterLeave(r, g, e, q, own);
    } else if e.EnterWorld? {
      AfterEntry(r, g, e, q, own);
    } else if e.Close? {
      AfterClose(r, g, e, q, own);
    } else if e.AttachTo? {
      AfterAttach(r, g, e, q, own);
    } else {
      AfterOther(r, g, e, q, own);
    }
  }

  ghost predicate AllAttend(es: seq<Event>, q: ClientId, own: byte) {
    forall i :: 0 <= i < |es| ==> Attends(es[i], q, own)
  }

  ghost function TrackedRun(r: Roster, g: Game, es: seq<Event>, q: ClientId): Roster
    requires IsRun(g, es)
    decreases es
  {
    if es == [] then r else TrackedRun(Tracked(r, g, es[0], q), After(g, es[0]), es[1..], q)
  }

  /** The slots on which somebody starts to play during the run. */
  ghost function StartersOf(g: Game, es: seq<Event>): set<byte>
    requires IsRun(g, es)
    decreases es
  {
    if es == [] then {}
    else (if Starts(g, es[0]) then {PlayerOf(g, es[0].client).bind} else {}) + StartersOf(After(g, es[0]), es[1..])
  }

  lemma {:induction false} RosterRun(r: Roster, g: Game, es: seq<Event>, q: ClientId, own: byte)
    requires Follows(r, g, q, own) && IsRun(g, es) && AllAttend(es, q, own)
    ensures Follows(TrackedRun(r, g, es, q), Run(g, es), q, own)
    ensures r.Keys + StartersOf(g, es) <= TrackedRun(r, g, es, q).Keys
    decreases es
  {
    if es != [] {
      assert Attends(es[0], q, own);
      RosterStep(r, g, es[0], q, own);
      assert forall i :: 0 <= i < |es[1..]| ==> es[1..][i] == es[i + 1];
      RosterRun(Tracked(r, g, es[0], q), After(g, es[0]), es[1..], q, own);
    }
  }

  // ---- from attaching on ----

  lemma StatusOfEntry(g: Game, e: Event)
    requires GameOk(g) && StatusOk(g) && e.EnterWorld? && Possible(g, e)
    ensures StatusOk(After(g, e))
  {
    var p, g1 := PlayerOf(g, e.client), AfterSwitch(g, e.client, e.world);
    StatusOfPlayer(g, e.client);
    WithPlayerHas(g, e.client, p.(world := None));
    SetWorldParts(g, e.client, e.world, e.ySize, e.order, e.walk);
    if Switches(g, e.client, e.world) {
      StatusUpdated(g, e.client, p.(world := None), g1);
    }
    if Step(g, e).outcome.Done? {
      StatusUpdated(g1, e.client, PlayerOf(g1, e.client).(world := Some(e.world), status := GAMING), After(g, e));
    }
  }

  lemma StatusOfClose(g: Game, e: Event)
    requires GameOk(g) && StatusOk(g) && e.Close? && Possible(g, e)
    ensures StatusOk(After(g, e))
  {
    CloseParts(g, e.client, e.order);
    StatusGone(g, e.client, After(g, e));
  }

  lemma StatusOfAttach(g: Game, e: Event)
    requires StatusOk(g) && e.AttachTo? && Possible(g, e)
    ensures StatusOk(After(g, e))
  {
  }

  /** Nobody is finished and still there, and only who plays is in a world, in every state of a game. */
  lemma StatusStep(g: Game, e: Event)
    requires GameOk(g) && StatusOk(g) && Possible(g, e)
    ensures StatusOk(After(g, e))
  {
    if e.EnterWorld? {
      StatusOfEntry(g, e);
    } else if e.Close? {
      StatusOfClose(g, e);
    } else if e.AttachTo? {
      StatusOfAttach(g, e);
    } else if e.Leave? {
      StatusOfPlayer(g, e.client);
      if PlayerOf(g, e.client).world.Some? {
        StatusUpdated(g, e.client, PlayerOf(g, e.client).(world := None), After(g, e));
      }
    } else {
      PlayersAlike(g, e);
    }
  }

  lemma {:induction false} StatusRun(g: Game, es: seq<Event>)
    requires GameOk(g) && StatusOk(g) && IsRun(g, es)
    ensures GameOk(Run(g, es)) && StatusOk(Run(g, es))
    decreases es
  {
    if es != [] {
      StatusStep(g, es[0]);
      GameOkStep(g, es[0]);
      StatusRun(After(g, es[0]), es[1..]);
    }
  }

  /** Somebody of the game plays on the slot, in this world or, if it is 0, in none. */
  ghost predicate PlaysOn(g: Game, b: byte, world: byte) {
    exists i :: 0 <= i < |g.players| && g.players[i].bind == b && g.players[i].status == GAMING
                && world == if g.players[i].world.Some? then g.players[i].world.value else 0
  }

  lemma SeatMeans(g: Game, b: byte, seat: Seat)
    requires GameOk(g) && seat == SeatOf(g, b)
    ensures seat.status in {1, 2} && (seat.status == 1 <==> exists world :: PlaysOn(g, b, world))
    ensures seat.status == 1 ==> PlaysOn(g, b, seat.world)
  {
    if IndexOfBind(g.players, b).Some? {
      var i := IndexOfBind(g.players, b).value;
      assert g.players[i].bind == b;
      if seat.status == 1 {
        assert PlaysOn(g, b, seat.world);
      }
    }
    forall world | PlaysOn(g, b, world) ensures seat.status == 1 {
      var i :| 0 <= i < |g.players| && g.players[i].bind == b && g.players[i].status == GAMING
               && world == if g.players[i].world.Some? then g.players[i].world.value else 0;
      SeatAt(g, i);
    }
  }

  /** The roster tells whether somebody plays on the slot, and where. */
  ghost predicate Tells(r: Roster, g: Game, b: byte) {
    && b in r && (r[b].status == 1 <==> exists world :: PlaysOn(g, b, world))
    && (r[b].status == 1 ==> PlaysOn(g, b, r[b].world))
  }

  lemma KnownTells(r: Roster, g: Game, own: byte, b: byte)
    requires GameOk(g) && Knows(r, g, own) && b in r && b != own
    ensures Tells(r, g, b)
  {
    SeatMeans(g, b, r[b]);
  }

  /** A player of a game, at any time, knows nothing. From then on, until it closes: of every slot on which
      somebody has started to play since, the notices that it was sent tell whether somebody plays there
      now, and in which world. */
  lemma WhoPlaysWhere(id: u32, before: seq<Event>, q: ClientId, es: seq<Event>, own: byte, b: byte)
    requires IsRun(NewGame(id), before) && Attending(Run(NewGame(id), before), q, own)
    requires IsRun(Run(NewGame(id), before), es) && AllAttend(es, q, own)
    requires b in StartersOf(Run(NewGame(id), before), es) && b != own
    ensures var g := Run(NewGame(id), before);
            Tells(TrackedRun(map[], g, es, q), Run(g, es), b)
  {
    var g := Run(NewGame(id), before);
    StatusRun(NewGame(id), before);
    RosterRun(map[], g, es, q, own);
    KnownTells(TrackedRun(map[], g, es, q), Run(g, es), own, b);
  }
}
