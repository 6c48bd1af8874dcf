/** The whole server as a value: its games, its connections, and what it has submitted to them. One
    function per message says what the message does to it. */
module Servers {
  import opened Wrappers
  import opened Bytes
  import opened Seqs
  import opened Vanjects
  import opened Messages
  import opened Games
  import opened Handlers
  import opened Steps
  import opened Lifecycle
  import opened Replica

  /** A packet submitted to a connection, as a replaceable update or not. */
  datatype Sent = Sent(client: ClientId, message: Message, realtime: bool)

  datatype State = State(games: map<u32, Game>, lastId: u32, clients: seq<ClientId>, sent: seq<Sent>)

  // ---- submission ----

  /** One notice, to those of its recipients that are connected. */
  function SendTo(clients: seq<ClientId>, n: Notice, realtime: bool): seq<Sent> {
    if clients == [] then []
    else
      var k := |clients| - 1;
      SendTo(clients[..k], n, realtime) + if clients[k] in n.to then [Sent(clients[k], n.message, realtime)] else []
  }

  function SendAll(clients: seq<ClientId>, ns: seq<Notice>, realtime: bool): seq<Sent> {
    if ns == [] then []
    else
      var k := |ns| - 1;
      SendAll(clients, ns[..k], realtime) + SendTo(clients, ns[k], realtime)
  }

  lemma SendAllSnoc(clients: seq<ClientId>, ns: seq<Notice>, n: Notice, realtime: bool)
    ensures SendAll(clients, ns + [n], realtime) == SendAll(clients, ns, realtime) + SendTo(clients, n, realtime)
  {
    assert (ns + [n])[..|ns|] == ns;
  }

  lemma SendAllOne(clients: seq<ClientId>, n: Notice, realtime: bool)
    ensures SendAll(clients, [n], realtime) == SendTo(clients, n, realtime)
  {
    assert [n][..0] == [];
  }

  lemma {:induction false} SendAllAppend(clients: seq<ClientId>, ns: seq<Notice>, ms: seq<Notice>, realtime: bool)
    ensures SendAll(clients, ns + ms, realtime) == SendAll(clients, ns, realtime) + SendAll(clients, ms, realtime)
    decreases ms
  {
    if ms == [] {
      assert ns + ms == ns;
    } else {
      var front, last := ms[..|ms| - 1], ms[|ms| - 1];
      SendAllAppend(clients, ns, front, realtime);
      assert ns + ms == (ns + front) + [last];
      SendAllSnoc(clients, ns + front, last, realtime);
      assert SendAll(clients, ms, realtime) == SendAll(clients, front, realtime) + SendTo(clients, last, realtime);
    }
  }

  /** What is submitted to a connection, in order. */
  function MessagesTo(sent: seq<Sent>, q: ClientId): seq<Message> {
    if sent == [] then []
    else
      var k := |sent| - 1;
      MessagesTo(sent[..k], q) + if sent[k].client == q then [sent[k].message] else []
  }

  /** What some notices address to a player, in order. */
  function AddressedTo(ns: seq<Notice>, q: ClientId): seq<Message> {
    if ns == [] then []
    else
      var k := |ns| - 1;
      AddressedTo(ns[..k], q) + if q in ns[k].to then [ns[k].message] else []
  }

  ghost predicate NoneTo(ns: seq<Notice>, q: ClientId) {
    forall i :: 0 <= i < |ns| ==> q !in ns[i].to
  }

  lemma {:induction false} AddressedNone(ns: seq<Notice>, q: ClientId)
    requires NoneTo(ns, q)
    ensures AddressedTo(ns, q) == []
    decreases ns
  {
    if ns != [] {
      AddressedNone(ns[..|ns| - 1], q);
    }
  }

  lemma {:induction false} AddressedAppend(ns: seq<Notice>, ms: seq<Notice>, q: ClientId)
    ensures AddressedTo(ns + ms, q) == AddressedTo(ns, q) + AddressedTo(ms, q)
    decreases ms
  {
    if ms == [] {
      assert ns + ms == ns;
    } else {
      var k := |ms| - 1;
      AddressedAppend(ns, ms[..k], q);
      assert (ns + ms)[..|ns| + k] == ns + ms[..k] && (ns + ms)[|ns| + k] == ms[k];
    }
  }

  lemma AddressedOne(n: Notice, q: ClientId)
    ensures AddressedTo([n], q) == if q in n.to then [n.message] else []
  {
    assert [n][..0] == [];
  }

  lemma {:induction false} MessagesToAppend(xs: seq<Sent>, ys: seq<Sent>, q: ClientId)
    ensures MessagesTo(xs + ys, q) == MessagesTo(xs, q) + MessagesTo(ys, q)
    decreases ys
  {
    if ys == [] {
      assert xs + ys == xs;
    } else {
      var k := |ys| - 1;
      MessagesToAppend(xs, ys[..k], q);
      assert (xs + ys)[..|xs| + k] == xs + ys[..k] && (xs + ys)[|xs| + k] == ys[k];
    }
  }

  lemma MessagesToOne(s: Sent, q: ClientId)
    ensures MessagesTo([s], q) == if s.client == q then [s.message] else []
  {
    assert [s][..0] == [];
  }

  ghost predicate DistinctIds(clients: seq<ClientId>) {
    forall i, j :: 0 <= i < j < |clients| ==> clients[i] != clients[j]
  }

  lemma {:induction false} SentTo(clients: seq<ClientId>, n: Notice, realtime: bool, q: ClientId)
    requires DistinctIds(clients)
    ensures MessagesTo(SendTo(clients, n, realtime), q) == if q in clients && q in n.to then [n.message] else []
    decreases clients
  {
    if clients != [] {
      var k := |clients| - 1;
      var last := if clients[k] in n.to then [Sent(clients[k], n.message, realtime)] else [];
      SentTo(clients[..k], n, realtime, q);
      MessagesToAppend(SendTo(clients[..k], n, realtime), last, q);
      MessagesToOne(Sent(clients[k], n.message, realtime), q);
      assert q in clients <==> q in clients[..k] || q == clients[k];
    }
  }

  /** A connected client is submitted exactly the notices that are addressed to it, in order, and one
      that is not connected nothing. */
  lemma {:induction false} SubmittedIsAddressed(clients: seq<ClientId>, ns: seq<Notice>, realtime: bool, q: ClientId)
    requires DistinctIds(clients)
    ensures MessagesTo(SendAll(clients, ns, realtime), q) == if q in clients then AddressedTo(ns, q) else []
    decreases ns
  {
    if ns != [] {
      var k := |ns| - 1;
      SubmittedIsAddressed(clients, ns[..k], realtime, q);
      SentTo(clients, ns[k], realtime, q);
      MessagesToAppend(SendAll(clients, ns[..k], realtime), SendTo(clients, ns[k], realtime), q);
    }
  }

  /** What a client makes of the messages it is submitted. */
  function ReplayMessages(view: View, ms: seq<Message>): View {
    if ms == [] then view
    else
      var k := |ms| - 1;
      Replay(ReplayMessages(view, ms[..k]), ms[k])
  }

  lemma {:induction false} ReplayMessagesAppend(view: View, xs: seq<Message>, ys: seq<Message>)
    ensures ReplayMessages(view, xs + ys) == ReplayMessages(ReplayMessages(view, xs), ys)
    decreases ys
  {
    if ys == [] {
      assert xs + ys == xs;
    } else {
      var k := |ys| - 1;
      ReplayMessagesAppend(view, xs, ys[..k]);
      assert (xs + ys)[..|xs| + k] == xs + ys[..k] && (xs + ys)[|xs| + k] == ys[k];
    }
  }

  lemma {:induction false} ReplayAddressed(view: View, ns: seq<Notice>, q: ClientId)
    ensures ReplayMessages(view, AddressedTo(ns, q)) == ReplayAll(view, ns, q)
    decreases ns
  {
    if ns != [] {
      var k := |ns| - 1;
      ReplayAddressed(view, ns[..k], q);
      assert ns == ns[..k] + [ns[k]];
      ReplaySnoc(view, ns[..k], ns[k], q);
      var before := AddressedTo(ns[..k], q);
      assert (before + [ns[k].message])[..|before|] == before && before + [] == before;
      assert AddressedTo(ns, q) == before + if q in ns[k].to then [ns[k].message] else [];
    }
  }

  // ---- which game a connection plays in ----

  ghost predicate Plays(games: map<u32, Game>, id: u32, client: ClientId) {
    id in games && HasClient(games[id], client)
  }

  ghost function GameOf(games: map<u32, Game>, client: ClientId): (r: Option<u32>)
    ensures r.Some? ==> Plays(games, r.value, client)
    ensures r.None? ==> forall id :: !Plays(games, id, client)
  {
    if exists id :: Plays(games, id, client) then
      var id :| Plays(games, id, client);
      Some(id)
    else None
  }

  /** Every listed game is in order and has a player, and no connection plays twice. */
  ghost predicate GamesOk(games: map<u32, Game>) {
    && (forall id :: id in games ==> games[id].id == id && GameOk(games[id]) && games[id].players != [])
    && (forall a, b, client :: Plays(games, a, client) && Plays(games, b, client) ==> a == b)
  }

  ghost predicate StateOk(s: State) {
    GamesOk(s.games) && DistinctIds(s.clients)
  }

  lemma OneGame(games: map<u32, Game>, id: u32, client: ClientId)
    requires GamesOk(games) && Plays(games, id, client)
    ensures GameOf(games, client) == Some(id)
  {
  }

  /** A game without players is removed. */
  function WithoutEmpty(games: map<u32, Game>, id: u32, g: Game): map<u32, Game> {
    if g.players == [] then games - {id} else games[id := g]
  }

  lemma ObjectsKeepPlayers(g: Game, e: Event)
    requires (e.Create? || e.Update? || e.Delete? || e.TransferItem?) && Possible(g, e)
    ensures After(g, e).id == g.id && |After(g, e).players| == |g.players|
  {
  }

  lemma EntryKeepsPlayers(g: Game, e: Event)
    requires e.EnterWorld? && Possible(g, e)
    ensures After(g, e).id == g.id && |After(g, e).players| == |g.players|
  {
    SetWorldParts(g, e.client, e.world, e.ySize, e.order, e.walk);
  }

  lemma KeepsPlayers(g: Game, e: Event)
    requires Possible(g, e) && DistinctClients(g.players)
    ensures After(g, e).id == g.id
    ensures !e.Close? ==> |After(g, e).players| >= |g.players|
  {
    if e.Create? || e.Update? || e.Delete? || e.TransferItem? {
      ObjectsKeepPlayers(g, e);
    } else if e.EnterWorld? {
      EntryKeepsPlayers(g, e);
    } else if e.Close? {
      CloseParts(g, e.client, e.order);
    }
  }

  lemma ReplacePlays(games: map<u32, Game>, id: u32, g': Game, a: u32, client: ClientId)
    requires Plays(WithoutEmpty(games, id, g'), a, client)
    ensures if a == id then HasClient(g', client) else Plays(games, a, client)
  {
  }

  /** A game may be replaced by one with the same connections, or new ones. */
  lemma ReplaceGame(games: map<u32, Game>, id: u32, g': Game)
    requires GamesOk(games) && g'.id == id && GameOk(g')
    requires forall c :: HasClient(g', c) ==> Plays(games, id, c) || forall other :: !Plays(games, other, c)
    ensures GamesOk(WithoutEmpty(games, id, g'))
  {
    var games' := WithoutEmpty(games, id, g');
    forall a, b, client | Plays(games', a, client) && Plays(games', b, client) ensures a == b {
      ReplacePlays(games, id, g', a, client);
      ReplacePlays(games, id, g', b, client);
    }
  }

  /** A step of one game keeps the server in order. */
  lemma EventKeepsGames(games: map<u32, Game>, id: u32, e: Event)
    requires GamesOk(games) && id in games && Possible(games[id], e)
    requires e.AttachTo? || e.Restore? ==> GameOf(games, e.client).None?
    ensures GamesOk(WithoutEmpty(games, id, After(games[id], e)))
    ensures !e.Close? ==> WithoutEmpty(games, id, After(games[id], e)) == games[id := After(games[id], e)]
  {
    var g' := After(games[id], e);
    GameOkStep(games[id], e);
    KeepsPlayers(games[id], e);
    forall c | HasClient(g', c) ensures Plays(games, id, c) || forall other :: !Plays(games, other, c) {
      ClientsStep(games[id], e, c);
    }
    ReplaceGame(games, id, g');
  }

  // ---- what each message does ----

  function Settle(s: State, id: u32, r: Reply, realtime: bool): State {
    s.(games := s.games[id := r.game], sent := s.sent + SendAll(s.clients, r.notices, realtime))
  }

  ghost function Creating(s: State, client: ClientId, data: seq<byte>): (State, Outcome) {
    match CreateFromSlice(data)
    case Err(e) => (s, Failed(VanjectParse(e)))
    case Ok(v) =>
      match GameOf(s.games, client)
      case None => (s, Failed(PlayerNotFound))
      case Some(id) =>
        var r := CreateObject(s.games[id], client, v);
        (Settle(s, id, r, false), r.outcome)
  }

  ghost function Updating(s: State, client: ClientId, data: seq<byte>): (State, Outcome) {
    if |data| < 4 then (s, Failed(UpdateTooSmall))
    else
      match GameOf(s.games, client)
      case None => (s, Failed(PlayerNotFound))
      case Some(id) =>
        var r := UpdateObject(s.games[id], client, data);
        (Settle(s, id, r, IsRealtime(FromRaw(FromLe32(data)))), r.outcome)
  }

  /** The packet holds an id, and the four bytes behind it where they are echoed. */
  ghost predicate DeletionFits(s: State, client: ClientId, data: seq<byte>) {
    && |data| >= 4
    && var found := GameOf(s.games, client);
       found.Some? && Echoes(s.games[found.value], client, FromRaw(FromLe32(data))) ==> |data| >= 8
  }

  ghost function Deleting(s: State, client: ClientId, data: seq<byte>): (State, Outcome)
    requires DeletionFits(s, client, data)
  {
    match GameOf(s.games, client)
    case None => (s, Failed(PlayerNotFound))
    case Some(id) =>
      var r := DeleteObject(s.games[id], client, FromRaw(FromLe32(data)), data[4..]);
      (Settle(s, id, r, false), r.outcome)
  }

  ghost function Transferring(s: State, client: ClientId, data: seq<byte>): (State, Outcome) {
    match CheckTransfer(data)
    case Err(e) => (s, Failed(e))
    case Ok(t) =>
      match GameOf(s.games, client)
      case None => (s, Failed(PlayerNotFound))
      case Some(id) =>
        var r := ItemTransfer(s.games[id], client, t);
        (Settle(s, id, r, false), r.outcome)
  }

  /** A walk of the objects that go when the sender leaves its world, if it is in one. */
  ghost predicate WalksDoomed(s: State, client: ClientId, order: seq<Id>) {
    var id := GameOf(s.games, client);
    id.Some? ==>
      var p := PlayerOf(s.games[id.value], client);
      p.world.Some? ==> Lists(order, Doomed(s.games[id.value], p.bind))
  }

  ghost function LeavingWorld(s: State, client: ClientId, order: seq<Id>): (State, Outcome)
    requires WalksDoomed(s, client, order)
  {
    match GameOf(s.games, client)
    case None => (s, Failed(PlayerNotFound))
    case Some(id) =>
      var r := LeaveWorld(s.games[id], client, order);
      (Settle(s, id, r, false), r.outcome)
  }

  ghost function Closing(s: State, client: ClientId, order: seq<Id>): (State, Outcome)
    requires WalksDoomed(s, client, order)
  {
    match GameOf(s.games, client)
    case None => (s, Failed(PlayerNotFound))
    case Some(id) =>
      var r := CloseSocket(s.games[id], client, order);
      (Settle(s, id, r, false).(games := WithoutEmpty(s.games, id, r.game)), r.outcome)
  }

  ghost predicate WalksEntry(s: State, client: ClientId, world: byte, order: seq<Id>, walk: seq<Id>) {
    var id := GameOf(s.games, client);
    id.Some? ==>
      var g := s.games[id.value];
      && Lists(order, if Switches(g, client, world) then Doomed(g, PlayerOf(g, client).bind) else {})
      && Lists(walk, AfterSwitch(g, client, world).vanjects.Keys)
  }

  ghost function Entering(s: State, client: ClientId, world: byte, ySize: u16, order: seq<Id>,
                          walk: seq<Id>): (State, Outcome)
    requires WalksEntry(s, client, world, order, walk)
  {
    match GameOf(s.games, client)
    case None => (s, Failed(PlayerNotFound))
    case Some(id) =>
      var r := SetWorld(s.games[id], client, world, ySize, order, walk);
      (Settle(s, id, r, false), r.outcome)
  }

  lemma SettleStep(s: State, id: u32, e: Event, realtime: bool)
    requires StateOk(s) && Plays(s.games, id, e.client) && Possible(s.games[id], e)
    requires !e.Close? && !e.AttachTo? && !e.Restore?
    ensures StateOk(Settle(s, id, Step(s.games[id], e), realtime))
  {
    EventKeepsGames(s.games, id, e);
  }

  /** No creation takes the server out of order, whatever its bytes. */
  lemma CreatingKeepsOrder(s: State, client: ClientId, data: seq<byte>)
    requires StateOk(s)
    ensures StateOk(Creating(s, client, data).0)
  {
    if GameOf(s.games, client).Some? && CreateFromSlice(data).Ok? {
      SettleStep(s, GameOf(s.games, client).value, Create(client, CreateFromSlice(data).value), false);
    }
  }

  /** Nor does an update. */
  lemma UpdatingKeepsOrder(s: State, client: ClientId, data: seq<byte>)
    requires StateOk(s)
    ensures StateOk(Updating(s, client, data).0)
  {
    if GameOf(s.games, client).Some? && |data| >= 4 {
      SettleStep(s, GameOf(s.games, client).value, Update(client, data), IsRealtime(FromRaw(FromLe32(data))));
    }
  }

  /** Nor does a deletion. */
  lemma DeletingKeepsOrder(s: State, client: ClientId, data: seq<byte>)
    requires StateOk(s) && DeletionFits(s, client, data)
    ensures StateOk(Deleting(s, client, data).0)
  {
    if GameOf(s.games, client).Some? {
      SettleStep(s, GameOf(s.games, client).value, Delete(client, FromRaw(FromLe32(data)), data[4..]), false);
    }
  }

  /** Nor does a transfer. */
  lemma TransferringKeepsOrder(s: State, client: ClientId, data: seq<byte>)
    requires StateOk(s)
    ensures StateOk(Transferring(s, client, data).0)
  {
    if GameOf(s.games, client).Some? && CheckTransfer(data).Ok? {
      SettleStep(s, GameOf(s.games, client).value, TransferItem(client, CheckTransfer(data).value), false);
    }
  }

  /** Nor does moving between worlds, or closing. */
  lemma MovesKeepOrder(s: State, client: ClientId, world: byte, ySize: u16, order: seq<Id>, walk: seq<Id>)
    requires StateOk(s)
    ensures WalksDoomed(s, client, order) ==> StateOk(LeavingWorld(s, client, order).0)
    ensures WalksDoomed(s, client, order) ==> StateOk(Closing(s, client, order).0)
    ensures WalksEntry(s, client, world, order, walk) ==> StateOk(Entering(s, client, world, ySize, order, walk).0)
  {
    var found := GameOf(s.games, client);
    if found.Some? {
      if WalksDoomed(s, client, order) {
        SettleStep(s, found.value, Leave(client, order), false);
        EventKeepsGames(s.games, found.value, Close(client, order));
      }
      if WalksEntry(s, client, world, order, walk) {
        SettleStep(s, found.value, EnterWorld(client, world, ySize, order, walk), false);
      }
    }
  }

  /** A reply that changes nothing. */
  lemma SettleNothing(s: State, id: u32, e: Error, realtime: bool)
    requires id in s.games
    ensures Settle(s, id, Reject(s.games[id], e), realtime) == s
  {
    assert s.games[id := s.games[id]] == s.games;
  }

  lemma SettleSettle(s: State, id: u32, r: Reply, r': Reply, realtime: bool)
    requires id in s.games
    ensures Settle(Settle(s, id, r, realtime), id, r', realtime)
            == Settle(s, id, Reply(r'.game, r.notices + r'.notices, r'.outcome), realtime)
  {
    SendAllAppend(s.clients, r.notices, r'.notices, realtime);
    assert s.games[id := r.game][id := r'.game] == s.games[id := r'.game];
  }

  /** Leaving, if need be, and then arriving is SET_WORLD. */
  lemma SettleTwice(s: State, id: u32, client: ClientId, world: byte, ySize: u16, order: seq<Id>, walk: seq<Id>)
    requires Plays(s.games, id, client)
    requires var g := s.games[id];
             && Lists(order, if Switches(g, client, world) then Doomed(g, PlayerOf(g, client).bind) else {})
             && Lists(walk, AfterSwitch(g, client, world).vanjects.Keys)
    ensures var g := s.games[id];
            var s1 := if Switches(g, client, world) then Settle(s, id, LeaveWorld(g, client, order), false) else s;
            Settle(s1, id, Arrive(AfterSwitch(g, client, world), client, world, ySize, walk), false)
            == Settle(s, id, SetWorld(g, client, world, ySize, order, walk), false)
  {
    var g := s.games[id];
    var r := Arrive(AfterSwitch(g, client, world), client, world, ySize, walk);
    if Switches(g, client, world) {
      SettleSettle(s, id, LeaveWorld(g, client, order), r, false);
    } else {
      assert [] + r.notices == r.notices;
    }
  }

  /** The rest of CLOSE_SOCKET, after the departure. */
  ghost function Finishing(s: State, id: u32, client: ClientId): State
    requires Plays(s.games, id, client)
  {
    s.(games := WithoutEmpty(s.games, id, Finished(s.games[id], client)),
       sent := s.sent + SendAll(s.clients, FinishNotices(s.games[id], client), false))
  }

  lemma PutTwice(games: map<u32, Game>, id: u32, g: Game, g': Game)
    ensures games[id := g][id := g'] == games[id := g']
    ensures WithoutEmpty(games[id := g], id, g') == WithoutEmpty(games, id, g')
  {
  }

  lemma StillPlays(s: State, id: u32, client: ClientId, order: seq<Id>)
    requires StateOk(s) && GameOf(s.games, client) == Some(id) && WalksDoomed(s, client, order)
    ensures Plays(LeavingWorld(s, client, order).0.games, id, client)
  {
    WithPlayerHas(s.games[id], client, PlayerOf(s.games[id], client).(world := None));
  }

  lemma LeavingThenFinishing(s: State, id: u32, client: ClientId, order: seq<Id>)
    requires StateOk(s) && GameOf(s.games, client) == Some(id) && WalksDoomed(s, client, order)
    ensures Plays(LeavingWorld(s, client, order).0.games, id, client)
    ensures Finishing(LeavingWorld(s, client, order).0, id, client) == Closing(s, client, order).0
  {
    StillPlays(s, id, client, order);
    var left := LeaveWorld(s.games[id], client, order);
    var g' := Finished(left.game, client);
    PutTwice(s.games, id, left.game, g');
    SettleSettle(s, id, left, Reply(g', FinishNotices(left.game, client), Done), false);
  }

  // ---- replies, packet by packet ----

  lemma SumInTurn<T>(before: seq<T>, a: seq<T>, b: seq<T>, c: seq<T>, d: seq<T>)
    ensures before + (a + b + c + d) == before + a + b + c + d
  {
    assert before + (a + b) == before + a + b;
    assert before + (a + b + c) == before + (a + b) + c;
  }

  lemma SubmittedParts(clients: seq<ClientId>, a: seq<Notice>, b: seq<Notice>, c: seq<Notice>, d: Notice)
    ensures SendAll(clients, a + b + c + [d], false)
            == SendAll(clients, a, false) + SendAll(clients, b, false) + SendAll(clients, c, false)
               + SendTo(clients, d, false)
  {
    SendAllAppend(clients, a, b, false);
    SendAllAppend(clients, a + b, c, false);
    SendAllSnoc(clients, a + b + c, d, false);
  }

  /** Lists of notices, one after the other. */
  lemma SubmittedInTurn(before: seq<Sent>, clients: seq<ClientId>, a: seq<Notice>, b: seq<Notice>, c: seq<Notice>,
                        d: Notice)
    ensures before + SendAll(clients, a + b + c + [d], false)
            == before + SendAll(clients, a, false) + SendAll(clients, b, false) + SendAll(clients, c, false)
               + SendTo(clients, d, false)
  {
    var sa, sb, sc, sd :=
      SendAll(clients, a, false), SendAll(clients, b, false), SendAll(clients, c, false), SendTo(clients, d, false);
    SubmittedParts(clients, a, b, c, d);
    SumInTurn(before, sa, sb, sc, sd);
  }

  lemma SubmittedBoth(before: seq<Sent>, clients: seq<ClientId>, a: seq<Notice>, b: seq<Notice>)
    ensures before + SendAll(clients, a + b, false) == before + SendAll(clients, a, false) + SendAll(clients, b, false)
  {
    var sa, sb := SendAll(clients, a, false), SendAll(clients, b, false);
    SendAllAppend(clients, a, b, false);
    assert before + (sa + sb) == before + sa + sb;
  }

  lemma SubmittedThen(before: seq<Sent>, clients: seq<ClientId>, a: seq<Notice>, d: Notice)
    ensures before + SendAll(clients, a + [d], false) == before + SendAll(clients, a, false) + SendTo(clients, d, false)
  {
    var sa, sd := SendAll(clients, a, false), SendTo(clients, d, false);
    SendAllSnoc(clients, a, d, false);
    assert before + (sa + sd) == before + sa + sd;
  }

  // ---- connections that come and go ----

  /** The counter of game ids, a 32-bit increment. */
  function NextId(last: u32): u32 {
    (last + 1) % 0x1_0000_0000
  }

  /** Game id 0 asks for a new game. */
  function WithGame(s: State, asked: u32): State {
    if asked != 0 then s
    else
      var id := NextId(s.lastId);
      s.(lastId := id, games := if id in s.games then s.games else s.games[id := NewGame(id)])
  }

  function GameAsked(s: State, asked: u32): u32 {
    if asked != 0 then asked else NextId(s.lastId)
  }

  /** The ids of the station that is about to be taken fit the array of offsets. */
  ghost predicate OffsetsFit(s: State, data: seq<byte>) {
    |data| == 4 ==>
      var id, games := GameAsked(s, FromLe32(data)), WithGame(s, FromLe32(data)).games;
      id in games ==> OffsetsInBounds(games[id])
  }

  ghost predicate WalksForOffsets(s: State, data: seq<byte>, walk: seq<Id>) {
    |data| == 4 ==>
      var id, games := GameAsked(s, FromLe32(data)), WithGame(s, FromLe32(data)).games;
      id in games ==> Lists(walk, games[id].vanjects.Keys)
  }

  ghost function Attaching(s: State, client: ClientId, data: seq<byte>, birth: u32, unix: u32,
                           walk: seq<Id>): (State, Outcome)
    requires OffsetsFit(s, data) && WalksForOffsets(s, data, walk)
  {
    if |data| != 4 then (s, Failed(PayloadInvalid))
    else
      var s1, id := WithGame(s, FromLe32(data)), GameAsked(s, FromLe32(data));
      if id !in s1.games then (s1, Failed(GameNotExists))
      else
        var r := Attach(s1.games[id], client, birth, unix, walk);
        (Settle(s1, id, r, false), r.outcome)
  }

  function Without(clients: seq<ClientId>, gone: ClientId): seq<ClientId> {
    Filter(clients, (c: ClientId) => c != gone)
  }

  function Restoring(s: State, client: ClientId, data: seq<byte>): (State, Outcome) {
    if |data| != 5 then (s, Failed(PayloadInvalid))
    else
      var id, bind := FromLe32(data), data[4];
      if id in s.games && IndexOfBind(s.games[id].players, bind).Some? then
        var replaced := s.games[id].players[IndexOfBind(s.games[id].players, bind).value].client;
        var clients := if replaced != client then Without(s.clients, replaced) else s.clients;
        (s.(games := s.games[id := RestoreConnection(s.games[id], client, bind)], clients := clients,
            sent := s.sent + SendTo(clients, Notice({client}, RestoreResponse(true)), false)), Done)
      else
        (s.(sent := s.sent + SendTo(s.clients, Notice({client}, RestoreResponse(false)), false)), Done)
  }

  /** How long a player outlives its connection, in the unit of the deadlines. */
  const DISCONNECTED_PLAYER_TTL := 60

  ghost function Disconnecting(s: State, client: ClientId, now: nat): State {
    var s1 := s.(clients := Without(s.clients, client));
    match GameOf(s.games, client)
    case None => s1
    case Some(id) => s1.(games := s.games[id := MarkDisconnected(s.games[id], client, now + DISCONNECTED_PLAYER_TTL)])
  }

  // ---- expiry ----

  ghost predicate InGame(games: map<u32, Game>, id: u32, p: Player) {
    id in games && p in games[id].players
  }

  predicate Due(p: Player, now: nat) {
    p.deadline.Some? && p.deadline.value <= now
  }

  /** Exactly the players whose deadline has come are gone, from every game. */
  ghost predicate ExpiredAt(games: map<u32, Game>, games': map<u32, Game>, now: nat) {
    forall id, p :: InGame(games', id, p) <==> InGame(games, id, p) && !Due(p, now)
  }

  lemma ClosedGameLoses(s: State, client: ClientId, order: seq<Id>, id: u32, p: Player)
    requires StateOk(s) && WalksDoomed(s, client, order) && GameOf(s.games, client) == Some(id)
    ensures InGame(Closing(s, client, order).0.games, id, p) <==> InGame(s.games, id, p) && p.client != client
  {
    CloseParts(s.games[id], client, order);
    FilterMembers(s.games[id].players, (o: Player) => o.client != client);
  }

  lemma OtherGamesKeep(s: State, client: ClientId, order: seq<Id>, id: u32, p: Player)
    requires StateOk(s) && WalksDoomed(s, client, order) && GameOf(s.games, client) != Some(id)
    ensures InGame(Closing(s, client, order).0.games, id, p) <==> InGame(s.games, id, p)
    ensures InGame(s.games, id, p) ==> p.client != client
  {
    if InGame(s.games, id, p) {
      ListedPlays(s.games, id, p);
    }
  }

  /** Closing a connection removes its player and no other. */
  lemma ClosingRemoves(s: State, client: ClientId, order: seq<Id>)
    requires StateOk(s) && WalksDoomed(s, client, order)
    ensures forall id, p :: InGame(Closing(s, client, order).0.games, id, p)
                            <==> InGame(s.games, id, p) && p.client != client
  {
    var games' := Closing(s, client, order).0.games;
    var found := GameOf(s.games, client);
    forall id: u32, p ensures InGame(games', id, p) <==> InGame(s.games, id, p) && p.client != client {
      if found == Some(id) {
        ClosedGameLoses(s, client, order, id, p);
      } else {
        OtherGamesKeep(s, client, order, id, p);
      }
    }
  }

  lemma ListedPlays(games: map<u32, Game>, id: u32, p: Player)
    requires GamesOk(games) && InGame(games, id, p)
    ensures Plays(games, id, p.client) && GameOf(games, p.client) == Some(id)
    ensures PlayerOf(games[id], p.client) == p
  {
    var i :| 0 <= i < |games[id].players| && games[id].players[i] == p;
    PlayerAt(games[id], p.client, i);
    OneGame(games, id, p.client);
  }

  // ---- keeping the server in order ----

  lemma WithoutStaysDistinct(clients: seq<ClientId>, gone: ClientId)
    requires DistinctIds(clients)
    ensures DistinctIds(Without(clients, gone))
  {
    FilterKeepsDistinct(clients, (c: ClientId) => c != gone, (c: ClientId) => c as int);
  }

  lemma JoinedKeepsGames(games: map<u32, Game>, id: u32, g: Game, e: Event)
    requires GamesOk(games) && g == (if id in games then games[id] else NewGame(id))
    requires e.AttachTo? && GameOf(games, e.client).None? && Possible(g, e)
    ensures GamesOk(games[id := After(g, e)]) && After(g, e).players != []
  {
    GameOkStep(g, e);
    KeepsPlayers(g, e);
    assert After(g, e).players != [];
    forall c | HasClient(After(g, e), c) ensures Plays(games, id, c) || forall other :: !Plays(games, other, c) {
      ClientsStep(g, e, c);
    }
    ReplaceGame(games, id, After(g, e));
  }

  /** A connection that has no player may attach; a game that is made for it is never left empty. */
  lemma AttachingKeepsOrder(s: State, client: ClientId, data: seq<byte>, birth: u32, unix: u32, walk: seq<Id>)
    requires StateOk(s) && OffsetsFit(s, data) && WalksForOffsets(s, data, walk) && GameOf(s.games, client).None?
    ensures StateOk(Attaching(s, client, data, birth, unix, walk).0)
  {
    if |data| == 4 {
      var s1, id := WithGame(s, FromLe32(data)), GameAsked(s, FromLe32(data));
      if id in s1.games {
        var g, e := s1.games[id], AttachTo(client, birth, unix, walk);
        assert HasClient(g, client) ==> Plays(s.games, id, client);
        JoinedKeepsGames(s.games, id, g, e);
        assert s1.games[id := After(g, e)] == s.games[id := After(g, e)];
      }
    }
  }

  lemma RestoringKeepsOrder(s: State, client: ClientId, data: seq<byte>)
    requires StateOk(s) && GameOf(s.games, client).None?
    ensures StateOk(Restoring(s, client, data).0)
  {
    if |data| == 5 && FromLe32(data) in s.games {
      var id, bind := FromLe32(data), data[4];
      assert !Plays(s.games, id, client);
      EventKeepsGames(s.games, id, Restore(client, bind));
      if IndexOfBind(s.games[id].players, bind).Some? {
        WithoutStaysDistinct(s.clients, s.games[id].players[IndexOfBind(s.games[id].players, bind).value].client);
      }
    }
  }

  lemma DisconnectingKeepsOrder(s: State, client: ClientId, now: nat)
    requires StateOk(s)
    ensures StateOk(Disconnecting(s, client, now))
  {
    WithoutStaysDistinct(s.clients, client);
    var found := GameOf(s.games, client);
    if found.Some? {
      EventKeepsGames(s.games, found.value, Disconnect(client, now + DISCONNECTED_PLAYER_TTL));
    }
  }

  /** The recipients do not change when the sender's own record does. */
  lemma RecipientsKept(g: Game, client: ClientId, p: Player)
    requires HasClient(g, client) && p.client == client
    ensures Others(WithPlayer(g, client, p), client) == Others(g, client)
    ensures Everyone(WithPlayer(g, client, p)) == Everyone(g)
  {
    var k, players := IndexOf(g.players, client).value, WithPlayer(g, client, p).players;
    forall c ensures c in Everyone(g) <==> exists i :: 0 <= i < |g.players| && g.players[i].client == c {
    }
    forall c | c in Everyone(g) ensures c in Everyone(WithPlayer(g, client, p)) {
      var i :| 0 <= i < |g.players| && g.players[i].client == c;
      assert players[i].client == c;
    }
    forall c | c in Everyone(WithPlayer(g, client, p)) ensures c in Everyone(g) {
      var i :| 0 <= i < |players| && players[i].client == c;
      assert g.players[i].client == c;
    }
    OthersAreEveryoneElse(g, client);
    OthersAreEveryoneElse(WithPlayer(g, client, p), client);
  }

  lemma OthersAreEveryoneElse(g: Game, client: ClientId)
    ensures Others(g, client) == Everyone(g) - {client}
  {
  }

  lemma OthersAfterLeaving(g: Game, client: ClientId)
    requires HasClient(g, client)
    ensures Others(Left(g, client), client) == Others(g, client)
  {
    var g' := WithPlayer(g, client, PlayerOf(g, client).(world := None));
    RecipientsKept(g, client, PlayerOf(g, client).(world := None));
    assert Left(g, client).players == g'.players;
  }

  /** Nor do those of an object, since the sender is never among them. */
  lemma AudienceKept(g: Game, client: ClientId, p: Player, id: Id)
    requires HasClient(g, client) && p.client == client
    ensures Audience(WithPlayer(g, client, p), id, client) == Audience(g, id, client)
  {
    var k, g' := IndexOf(g.players, client).value, WithPlayer(g, client, p);
    RecipientsKept(g, client, p);
    forall o | o in g.players && o.client != client ensures o in g'.players {
      var i :| 0 <= i < |g.players| && g.players[i] == o;
      assert g'.players[i] == o;
    }
    forall o | o in g'.players && o.client != client ensures o in g.players {
      var i :| 0 <= i < |g'.players| && g'.players[i] == o;
      assert g.players[i] == o;
    }
    assert InWorld(g', id.world, client) == InWorld(g, id.world, client);
  }

  // ---- the tick ----

  /** Connections that are closed one after the other, with a walk of what goes for each. */
  ghost predicate ClosesInTurn(s: State, due: seq<ClientId>, orders: seq<seq<Id>>)
    decreases |due|, 0
  {
    && |due| == |orders|
    && (due == []
        || (var k := |due| - 1;
            ClosesInTurn(s, due[..k], orders[..k])
            && WalksDoomed(CloseAll(s, due[..k], orders[..k]), due[k], orders[k])))
  }

  ghost function CloseAll(s: State, due: seq<ClientId>, orders: seq<seq<Id>>): State
    requires ClosesInTurn(s, due, orders)
    decreases |due|, 1
  {
    if due == [] then s
    else
      var k := |due| - 1;
      Closing(CloseAll(s, due[..k], orders[..k]), due[k], orders[k]).0
  }

  /** Exactly the connections of the players whose deadline has come. */
  ghost predicate AreDue(games: map<u32, Game>, due: seq<ClientId>, now: nat) {
    forall c :: c in due <==> exists id, p :: InGame(games, id, p) && Due(p, now) && p.client == c
  }

  lemma CloseAllSnoc(s: State, due: seq<ClientId>, orders: seq<seq<Id>>, client: ClientId, order: seq<Id>)
    requires ClosesInTurn(s, due, orders) && WalksDoomed(CloseAll(s, due, orders), client, order)
    ensures ClosesInTurn(s, due + [client], orders + [order])
    ensures CloseAll(s, due + [client], orders + [order]) == Closing(CloseAll(s, due, orders), client, order).0
  {
    assert (due + [client])[..|due|] == due && (orders + [order])[..|orders|] == orders;
  }
}
