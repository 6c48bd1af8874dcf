/** The server as a state machine: messages, connections that come and go, and the tick, in any order.
    Each message is one that `MainLoop.Server` handles, with the same effect. */
module Runs {
  import opened Wrappers
  import opened Bytes
  import opened Seqs
  import opened Vanjects
  import opened Messages
  import opened Games
  import opened Handlers
  import opened Steps
  import opened Lifecycle
  import opened Servers

  /** A message of a connection, as bytes where they matter. `order` and `walk` are walks of hash maps;
      `birth` and `unix` are clock readings. */
  datatype Request =
    | CreateRequest(data: seq<byte>)
    | UpdateRequest(data: seq<byte>)
    | DeleteRequest(data: seq<byte>)
    | TransferRequest(data: seq<byte>)
    | LeaveRequest(order: seq<Id>)
    | EnterRequest(data: seq<byte>, order: seq<Id>, walk: seq<Id>)
    | CloseRequest(order: seq<Id>)
    | AttachRequest(data: seq<byte>, birth: u32, unix: u32, walk: seq<Id>)
    | RestoreRequest(data: seq<byte>)
    | ProfileRequest(name: Option<seq<byte>>, body: Option<seq<byte>>, x: u16, y: u16)
    | ConfigureRequest

  datatype Happening =
    | Message(client: ClientId, request: Request)
    | Tick(now: nat, due: seq<ClientId>, orders: seq<seq<Id>>)
    | Disconnected(client: ClientId, now: nat)
    | Connected(client: ClientId)

  /** Only a connection without a player attaches or restores. A connection is listed once, and not after it
      broke; its first messages may come before it is listed. */
  ghost predicate Enabled(s: State, h: Happening) {
    match h
    case Message(c, r) => Acceptable(s, c, r)
    case Tick(now, due, orders) => AreDue(s.games, due, now) && ClosesInTurn(s, due, orders)
    case Disconnected(_, _) => true
    case Connected(c) => c !in s.clients && Unbroken(s, c)
  }

  /** The player of the connection, if it has one, has no deadline. */
  ghost predicate Unbroken(s: State, c: ClientId) {
    forall id :: Plays(s.games, id, c) ==> PlayerOf(s.games[id], c).deadline.None?
  }

  ghost predicate Acceptable(s: State, c: ClientId, r: Request) {
    match r
    case DeleteRequest(data) => DeletionFits(s, c, data)
    case LeaveRequest(order) => WalksDoomed(s, c, order)
    case EnterRequest(data, order, walk) => |data| >= 3 && WalksEntry(s, c, data[0], order, walk)
    case CloseRequest(order) => WalksDoomed(s, c, order)
    case AttachRequest(data, _, _, walk) =>
      GameOf(s.games, c).None? && OffsetsFit(s, data) && WalksForOffsets(s, data, walk)
    case RestoreRequest(_) => GameOf(s.games, c).None?
    case _ => true
  }

  ghost function InGameOnly(s: State, e: Event): (State, Outcome)
    requires e.Profile? || e.Configure?
  {
    match GameOf(s.games, e.client)
    case None => (s, Failed(PlayerNotFound))
    case Some(id) => (Settle(s, id, Step(s.games[id], e), false), Done)
  }

  ghost function Handle(s: State, c: ClientId, r: Request): (State, Outcome)
    requires Acceptable(s, c, r)
  {
    match r
    case CreateRequest(data) => Creating(s, c, data)
    case UpdateRequest(data) => Updating(s, c, data)
    case DeleteRequest(data) => Deleting(s, c, data)
    case TransferRequest(data) => Transferring(s, c, data)
    case LeaveRequest(order) => LeavingWorld(s, c, order)
    case EnterRequest(data, order, walk) => Entering(s, c, data[0], FromLe16(data[1..]), order, walk)
    case CloseRequest(order) => Closing(s, c, order)
    case AttachRequest(data, birth, unix, walk) => Attaching(s, c, data, birth, unix, walk)
    case RestoreRequest(data) => Restoring(s, c, data)
    case ProfileRequest(name, body, x, y) => InGameOnly(s, Profile(c, name, body, x, y))
    case ConfigureRequest => InGameOnly(s, Configure(c))
  }

  ghost function Next(s: State, h: Happening): State
    requires Enabled(s, h)
  {
    match h
    case Message(c, r) => Handle(s, c, r).0
    case Tick(_, due, orders) => CloseAll(s, due, orders)
    case Disconnected(c, now) => Disconnecting(s, c, now)
    case Connected(c) => s.(clients := s.clients + [c])
  }

  ghost predicate IsHistory(s: State, hs: seq<Happening>)
    decreases hs
  {
    hs == [] || (Enabled(s, hs[0]) && IsHistory(Next(s, hs[0]), hs[1..]))
  }

  ghost function Final(s: State, hs: seq<Happening>): State
    requires IsHistory(s, hs)
    decreases hs
  {
    if hs == [] then s else Final(Next(s, hs[0]), hs[1..])
  }

  const NEW_SERVER := State(map[], 0, [], [])

  // ---- what a message does to one game ----

  /** A message makes one step of one game, or none. `g` is the game before it, which may be new. */
  datatype Act = Nothing | Acts(id: u32, g: Game, e: Event)

  ghost function InOwnGame(s: State, e: Event): Act {
    match GameOf(s.games, e.client)
    case None => Nothing
    case Some(id) => Acts(id, s.games[id], e)
  }

  ghost function ActOf(s: State, c: ClientId, r: Request): Act
    requires Acceptable(s, c, r)
  {
    match r
    case CreateRequest(data) =>
      if CreateFromSlice(data).Err? then Nothing else InOwnGame(s, Create(c, CreateFromSlice(data).value))
    case UpdateRequest(data) => if |data| < 4 then Nothing else InOwnGame(s, Update(c, data))
    case DeleteRequest(data) => InOwnGame(s, Delete(c, FromRaw(FromLe32(data)), data[4..]))
    case TransferRequest(data) =>
      if CheckTransfer(data).Err? then Nothing else InOwnGame(s, TransferItem(c, CheckTransfer(data).value))
    case LeaveRequest(order) => InOwnGame(s, Leave(c, order))
    case EnterRequest(data, order, walk) => InOwnGame(s, EnterWorld(c, data[0], FromLe16(data[1..]), order, walk))
    case CloseRequest(order) => InOwnGame(s, Close(c, order))
    case AttachRequest(data, birth, unix, walk) =>
      if |data| == 4 && GameAsked(s, FromLe32(data)) in WithGame(s, FromLe32(data)).games then
        var id := GameAsked(s, FromLe32(data));
        Acts(id, WithGame(s, FromLe32(data)).games[id], AttachTo(c, birth, unix, walk))
      else Nothing
    case RestoreRequest(data) =>
      if |data| == 5 && FromLe32(data) in s.games then
        Acts(FromLe32(data), s.games[FromLe32(data)], Restore(c, data[4]))
      else Nothing
    case ProfileRequest(name, body, x, y) => InOwnGame(s, Profile(c, name, body, x, y))
    case ConfigureRequest => InOwnGame(s, Configure(c))
  }

  /** The act is a possible step of the sender in its game, or in one it joins. */
  ghost predicate Sound(s: State, c: ClientId, a: Act) {
    a.Acts? ==>
      && a.e.client == c && Possible(a.g, a.e)
      && a.g == (if a.id in s.games then s.games[a.id] else NewGame(a.id))
      && (a.id in s.games || a.e.AttachTo?)
      && (a.e.AttachTo? || a.e.Restore? ==> GameOf(s.games, c).None?)
      && (!a.e.AttachTo? && !a.e.Restore? ==> GameOf(s.games, c) == Some(a.id))
  }

  ghost function GamesAfter(s: State, c: ClientId, a: Act): map<u32, Game>
    requires Sound(s, c, a)
  {
    match a
    case Nothing => s.games
    case Acts(id, g, e) => WithoutEmpty(s.games, id, After(g, e))
  }

  /** The act is all that happened: to the games, to the submissions and in the outcome. */
  ghost predicate Made(s: State, c: ClientId, a: Act, after: (State, Outcome), realtime: bool) {
    && Sound(s, c, a)
    && after.0.games == GamesAfter(s, c, a) && after.0.clients == s.clients
    && match a
       case Nothing => after.0.sent == s.sent && after.1.Failed?
       case Acts(_, g, e) =>
         after.0.sent == s.sent + SendAll(s.clients, Step(g, e).notices, realtime) && after.1 == Step(g, e).outcome
  }

  lemma OwnGameActs(s: State, e: Event, realtime: bool)
    requires StateOk(s) && !e.AttachTo? && !e.Restore? && !e.Close? && GameOf(s.games, e.client).Some?
    requires Possible(s.games[GameOf(s.games, e.client).value], e)
    ensures var id := GameOf(s.games, e.client).value;
            var r := Step(s.games[id], e);
            Made(s, e.client, InOwnGame(s, e), (Settle(s, id, r, realtime), r.outcome), realtime)
  {
    EventKeepsGames(s.games, GameOf(s.games, e.client).value, e);
  }

  /** Which submissions are replaceable. */
  predicate AsRealtime(r: Request) {
    r.UpdateRequest? && |r.data| >= 4 && IsRealtime(FromRaw(FromLe32(r.data)))
  }

  ghost predicate MadeBy(s: State, c: ClientId, r: Request)
    requires Acceptable(s, c, r)
  {
    Made(s, c, ActOf(s, c, r), Handle(s, c, r), AsRealtime(r))
  }

  lemma CreateActs(s: State, c: ClientId, data: seq<byte>)
    requires StateOk(s)
    ensures Made(s, c, ActOf(s, c, CreateRequest(data)), Creating(s, c, data), false)
  {
    if CreateFromSlice(data).Ok? && GameOf(s.games, c).Some? {
      OwnGameActs(s, Create(c, CreateFromSlice(data).value), false);
    }
  }

  lemma UpdateActs(s: State, c: ClientId, data: seq<byte>)
    requires StateOk(s)
    ensures Made(s, c, ActOf(s, c, UpdateRequest(data)), Updating(s, c, data), AsRealtime(UpdateRequest(data)))
  {
    if |data| >= 4 && GameOf(s.games, c).Some? {
      OwnGameActs(s, Update(c, data), IsRealtime(FromRaw(FromLe32(data))));
    }
  }

  lemma DeleteActs(s: State, c: ClientId, data: seq<byte>)
    requires StateOk(s) && DeletionFits(s, c, data)
    ensures Made(s, c, ActOf(s, c, DeleteRequest(data)), Deleting(s, c, data), false)
  {
    if GameOf(s.games, c).Some? {
      OwnGameActs(s, Delete(c, FromRaw(FromLe32(data)), data[4..]), false);
    }
  }

  lemma TransferActs(s: State, c: ClientId, data: seq<byte>)
    requires StateOk(s)
    ensures Made(s, c, ActOf(s, c, TransferRequest(data)), Transferring(s, c, data), false)
  {
    if CheckTransfer(data).Ok? && GameOf(s.games, c).Some? {
      OwnGameActs(s, TransferItem(c, CheckTransfer(data).value), false);
    }
  }

  lemma LeaveActs(s: State, c: ClientId, order: seq<Id>)
    requires StateOk(s) && WalksDoomed(s, c, order)
    ensures Made(s, c, InOwnGame(s, Leave(c, order)), LeavingWorld(s, c, order), false)
  {
    if GameOf(s.games, c).Some? {
      OwnGameActs(s, Leave(c, order), false);
    }
  }

  lemma EnterActs(s: State, c: ClientId, r: Request)
    requires StateOk(s) && r.EnterRequest? && Acceptable(s, c, r)
    ensures MadeBy(s, c, r)
  {
    if GameOf(s.games, c).Some? {
      OwnGameActs(s, EnterWorld(c, r.data[0], FromLe16(r.data[1..]), r.order, r.walk), false);
    }
  }

  lemma ClosingActs(s: State, id: u32, e: Event)
    requires StateOk(s) && e.Close? && GameOf(s.games, e.client) == Some(id) && Possible(s.games[id], e)
    ensures var r := Step(s.games[id], e);
            var s' := Settle(s, id, r, false).(games := WithoutEmpty(s.games, id, r.game));
            Made(s, e.client, InOwnGame(s, e), (s', r.outcome), false)
  {
  }

  lemma CloseActs(s: State, c: ClientId, order: seq<Id>)
    requires StateOk(s) && WalksDoomed(s, c, order)
    ensures Made(s, c, InOwnGame(s, Close(c, order)), Closing(s, c, order), false)
  {
    if GameOf(s.games, c).Some? {
      ClosingActs(s, GameOf(s.games, c).value, Close(c, order));
    }
  }

  lemma SettingActs(s: State, e: Event)
    requires StateOk(s) && (e.Profile? || e.Configure?)
    ensures Made(s, e.client, InOwnGame(s, e), InGameOnly(s, e), false)
  {
    if GameOf(s.games, e.client).Some? {
      OwnGameActs(s, e, false);
    }
  }

  lemma AttachedGames(s: State, a: Act)
    requires StateOk(s) && a.Acts? && a.e.AttachTo? && Sound(s, a.e.client, a)
    ensures GamesAfter(s, a.e.client, a) == s.games[a.id := After(a.g, a.e)]
  {
    JoinedKeepsGames(s.games, a.id, a.g, a.e);
  }

  lemma AttachingActs(s: State, s1: State, a: Act)
    requires StateOk(s) && a.Acts? && a.e.AttachTo? && Sound(s, a.e.client, a)
    requires s1.games == s.games[a.id := a.g] && s1.clients == s.clients && s1.sent == s.sent
    ensures var r := Step(a.g, a.e);
            Made(s, a.e.client, a, (Settle(s1, a.id, r, false), r.outcome), false)
  {
    AttachedGames(s, a);
    PutTwice(s.games, a.id, a.g, After(a.g, a.e));
  }

  lemma AttachActs(s: State, c: ClientId, r: Request)
    requires StateOk(s) && r.AttachRequest? && Acceptable(s, c, r)
    ensures MadeBy(s, c, r)
  {
    var a := ActOf(s, c, r);
    if a.Acts? {
      assert HasClient(a.g, c) ==> Plays(s.games, a.id, c);
      var s1 := WithGame(s, FromLe32(r.data));
      assert s1.games == s.games[a.id := a.g];
      AttachingActs(s, s1, a);
    }
  }

  /** Some player of the game holds the slot. */
  ghost predicate SlotTaken(games: map<u32, Game>, id: u32, bind: byte) {
    id in games && exists i :: 0 <= i < |games[id].players| && games[id].players[i].bind == bind
  }

  /** Restoring moves a slot, forgets the connection it replaces and tells the sender whether there was
      a player on it. */
  ghost predicate Restored(s: State, c: ClientId, a: Act, data: seq<byte>, s': State)
    requires |data| == 5
  {
    && Sound(s, c, a) && s'.games == GamesAfter(s, c, a)
    && var answer := RestoreResponse(SlotTaken(s.games, FromLe32(data), data[4]));
       s'.sent == s.sent + SendTo(s'.clients, Notice({c}, answer), false)
  }

  lemma RestoreActs(s: State, c: ClientId, data: seq<byte>)
    requires StateOk(s) && GameOf(s.games, c).None?
    ensures var r := RestoreRequest(data);
            |data| == 5 ==> Restored(s, c, ActOf(s, c, r), data, Handle(s, c, r).0)
  {
    var a := ActOf(s, c, RestoreRequest(data));
    if a.Acts? {
      assert HasClient(a.g, c) ==> Plays(s.games, a.id, c);
      EventKeepsGames(s.games, a.id, a.e);
      if IndexOfBind(a.g.players, a.e.bind).None? {
        assert s.games[a.id := a.g] == s.games;
      } else {
        assert a.g.players[IndexOfBind(a.g.players, a.e.bind).value].bind == data[4];
      }
    }
  }

  /** Every message but a restoring one. */
  lemma MessageActs(s: State, c: ClientId, r: Request)
    requires StateOk(s) && Acceptable(s, c, r) && !r.RestoreRequest?
    ensures MadeBy(s, c, r)
  {
    match r
    case CreateRequest(data) => CreateActs(s, c, data);
    case UpdateRequest(data) => UpdateActs(s, c, data);
    case DeleteRequest(data) => DeleteActs(s, c, data);
    case TransferRequest(data) => TransferActs(s, c, data);
    case LeaveRequest(order) => LeaveActs(s, c, order);
    case EnterRequest(_, _, _) => EnterActs(s, c, r);
    case CloseRequest(order) => CloseActs(s, c, order);
    case AttachRequest(_, _, _, _) => AttachActs(s, c, r);
    case ProfileRequest(name, body, x, y) => SettingActs(s, Profile(c, name, body, x, y));
    case ConfigureRequest => SettingActs(s, Configure(c));
  }

  lemma MessageActsInGames(s: State, c: ClientId, r: Request)
    requires StateOk(s) && Acceptable(s, c, r)
    ensures Sound(s, c, ActOf(s, c, r))
    ensures Handle(s, c, r).0.games == GamesAfter(s, c, ActOf(s, c, r))
  {
    if r.RestoreRequest? {
      RestoreActs(s, c, r.data);
    } else {
      MessageActs(s, c, r);
    }
  }

  // ---- order ----

  lemma ActKeepsGames(s: State, c: ClientId, a: Act)
    requires StateOk(s) && Sound(s, c, a)
    ensures GamesOk(GamesAfter(s, c, a))
  {
    if a.Acts? {
      if a.id in s.games {
        EventKeepsGames(s.games, a.id, a.e);
      } else {
        JoinedKeepsGames(s.games, a.id, a.g, a.e);
      }
    }
  }

  lemma WithoutMembers(clients: seq<ClientId>, gone: ClientId)
    ensures forall c :: c in Without(clients, gone) <==> c in clients && c != gone
  {
    FilterMembers(clients, (c: ClientId) => c != gone);
  }

  /** A message lists no new connection, and forgets only the one that a restored one replaces. */
  lemma ListedAfter(s: State, c: ClientId, r: Request)
    requires StateOk(s) && Acceptable(s, c, r)
    ensures DistinctIds(Handle(s, c, r).0.clients)
    ensures forall q :: q in Handle(s, c, r).0.clients ==> q in s.clients
  {
    if r.RestoreRequest? {
      RestoringKeepsOrder(s, c, r.data);
      if |r.data| == 5 && ReplacedBy(s, r.data).Some? {
        WithoutMembers(s.clients, ReplacedBy(s, r.data).value);
      }
    } else {
      MessageActs(s, c, r);
    }
  }

  /** The connection whose slot a RESTORE_CONNECTION asks for. */
  function ReplacedBy(s: State, data: seq<byte>): Option<ClientId>
    requires |data| == 5
  {
    var id := FromLe32(data);
    if id !in s.games then None
    else
      match IndexOfBind(s.games[id].players, data[4])
      case None => None
      case Some(i) => Some(s.games[id].players[i].client)
  }

  lemma MessageKeepsOrder(s: State, c: ClientId, r: Request)
    requires StateOk(s) && Acceptable(s, c, r)
    ensures StateOk(Handle(s, c, r).0)
  {
    MessageActsInGames(s, c, r);
    ActKeepsGames(s, c, ActOf(s, c, r));
    ListedAfter(s, c, r);
  }

  lemma {:induction false} TickKeepsOrder(s: State, due: seq<ClientId>, orders: seq<seq<Id>>)
    requires StateOk(s) && ClosesInTurn(s, due, orders)
    ensures StateOk(CloseAll(s, due, orders)) && CloseAll(s, due, orders).clients == s.clients
    decreases |due|
  {
    if due != [] {
      var k := |due| - 1;
      TickKeepsOrder(s, due[..k], orders[..k]);
      MovesKeepOrder(CloseAll(s, due[..k], orders[..k]), due[k], 0, 0, orders[k], []);
    }
  }

  lemma OrderStep(s: State, h: Happening)
    requires StateOk(s) && Enabled(s, h)
    ensures StateOk(Next(s, h))
  {
    match h
    case Message(c, r) => MessageKeepsOrder(s, c, r);
    case Tick(_, due, orders) => TickKeepsOrder(s, due, orders);
    case Disconnected(c, now) => DisconnectingKeepsOrder(s, c, now);
    case Connected(_) =>
  }

  // ---- only players whose connection is gone can expire ----

  ghost predicate Attended(s: State) {
    forall id, c :: Plays(s.games, id, c) && c in s.clients ==> PlayerOf(s.games[id], c).deadline.None?
  }

  lemma UnbrokenAct(s: State, c: ClientId, a: Act, id: u32, q: ClientId)
    requires StateOk(s) && Sound(s, c, a) && !(a.Acts? && a.e.Disconnect?)
    requires Plays(GamesAfter(s, c, a), id, q) && Unbroken(s, q)
    ensures PlayerOf(GamesAfter(s, c, a)[id], q).deadline.None?
  {
    if a.Acts? && a.id == id {
      DeadlineStep(a.g, a.e, q);
      assert HasClient(a.g, q) ==> Plays(s.games, id, q);
    } else {
      assert Plays(s.games, id, q);
    }
  }

  lemma AttendedAct(s: State, c: ClientId, a: Act, s': State)
    requires StateOk(s) && Attended(s) && Sound(s, c, a) && !(a.Acts? && a.e.Disconnect?)
    requires s'.games == GamesAfter(s, c, a) && forall q :: q in s'.clients ==> q in s.clients
    ensures Attended(s')
  {
    forall id, q | Plays(s'.games, id, q) && q in s'.clients ensures PlayerOf(s'.games[id], q).deadline.None? {
      UnbrokenAct(s, c, a, id, q);
    }
  }

  lemma {:induction false} AttendedTick(s: State, due: seq<ClientId>, orders: seq<seq<Id>>)
    requires StateOk(s) && Attended(s) && ClosesInTurn(s, due, orders)
    ensures Attended(CloseAll(s, due, orders))
    decreases |due|
  {
    if due != [] {
      var k := |due| - 1;
      var s1 := CloseAll(s, due[..k], orders[..k]);
      TickKeepsOrder(s, due[..k], orders[..k]);
      AttendedTick(s, due[..k], orders[..k]);
      CloseActs(s1, due[k], orders[k]);
      AttendedAct(s1, due[k], ActOf(s1, due[k], CloseRequest(orders[k])), Closing(s1, due[k], orders[k]).0);
    }
  }

  lemma AttendedDisconnection(s: State, c: ClientId, now: nat)
    requires StateOk(s) && Attended(s)
    ensures Attended(Disconnecting(s, c, now))
  {
    var s' := Disconnecting(s, c, now);
    WithoutMembers(s.clients, c);
    forall id, q | Plays(s'.games, id, q) && q in s'.clients ensures PlayerOf(s'.games[id], q).deadline.None? {
      if GameOf(s.games, c) == Some(id) {
        DeadlineStep(s.games[id], Disconnect(c, now + DISCONNECTED_PLAYER_TTL), q);
        assert HasClient(s.games[id], q) ==> Plays(s.games, id, q);
      } else {
        assert Plays(s.games, id, q);
      }
    }
  }

  lemma AttendedConnection(s: State, c: ClientId)
    requires Attended(s) && Unbroken(s, c)
    ensures Attended(s.(clients := s.clients + [c]))
  {
  }

  lemma AttendedStep(s: State, h: Happening)
    requires StateOk(s) && Attended(s) && Enabled(s, h)
    ensures Attended(Next(s, h))
  {
    match h
    case Message(c, r) =>
      MessageActsInGames(s, c, r);
      ListedAfter(s, c, r);
      AttendedAct(s, c, ActOf(s, c, r), Handle(s, c, r).0);
    case Tick(_, due, orders) => AttendedTick(s, due, orders);
    case Disconnected(c, now) => AttendedDisconnection(s, c, now);
    case Connected(c) => AttendedConnection(s, c);
  }

  lemma {:induction false} OrderRun(s: State, hs: seq<Happening>)
    requires StateOk(s) && Attended(s) && IsHistory(s, hs)
    ensures StateOk(Final(s, hs)) && Attended(Final(s, hs))
    decreases hs
  {
    if hs != [] {
      OrderStep(s, hs[0]);
      AttendedStep(s, hs[0]);
      OrderRun(Next(s, hs[0]), hs[1..]);
    }
  }

  /** Whatever connects, sends, breaks and expires: every listed game is in order and has a player, no
      connection plays in two games or twice, and no player whose connection is up has a deadline. */
  lemma ReachableServer(hs: seq<Happening>)
    requires IsHistory(NEW_SERVER, hs)
    ensures StateOk(Final(NEW_SERVER, hs)) && Attended(Final(NEW_SERVER, hs))
  {
    OrderRun(NEW_SERVER, hs);
  }

  // ---- keeping a slot ----

  /** The connection plays in the game on the slot, with this deadline, if any. */
  ghost predicate HoldsSlot(s: State, client: ClientId, id: u32, bind: byte, deadline: Option<nat> := None) {
    Plays(s.games, id, client) && Holds(s.games[id], client, bind, deadline)
  }

  /** The request restores this very slot. */
  predicate Claims(r: Request, id: u32, bind: byte) {
    r.RestoreRequest? && |r.data| == 5 && FromLe32(r.data) == id && r.data[4] == bind
  }

  /** The connection does not close and is not reported broken, nobody restores its slot, and no tick
      reaches its deadline. */
  predicate Spares(h: Happening, client: ClientId, id: u32, bind: byte, deadline: Option<nat> := None) {
    match h
    case Message(c, r) => !(c == client && r.CloseRequest?) && !Claims(r, id, bind)
    case Disconnected(c, _) => c != client
    case Tick(now, _, _) => deadline.None? || now < deadline.value
    case _ => true
  }

  lemma HoldsAct(s: State, c: ClientId, a: Act, client: ClientId, id: u32, bind: byte, deadline: Option<nat>)
    requires StateOk(s) && HoldsSlot(s, client, id, bind, deadline) && Sound(s, c, a)
    requires a.Acts? && a.id == id ==> Keeps(a.e, client, bind)
    ensures id in GamesAfter(s, c, a) && Holds(GamesAfter(s, c, a)[id], client, bind, deadline)
  {
    if a.Acts? && a.id == id {
      HoldsStep(a.g, a.e, client, bind, deadline);
    }
  }

  lemma HoldsMessage(s: State, c: ClientId, r: Request, client: ClientId, id: u32, bind: byte, deadline: Option<nat>)
    requires StateOk(s) && HoldsSlot(s, client, id, bind, deadline) && Acceptable(s, c, r)
    requires Spares(Message(c, r), client, id, bind)
    ensures HoldsSlot(Handle(s, c, r).0, client, id, bind, deadline)
  {
    MessageActsInGames(s, c, r);
    HoldsAct(s, c, ActOf(s, c, r), client, id, bind, deadline);
  }

  /** Closing other connections leaves the slot alone. */
  lemma {:induction false} HoldsTick(s: State, due: seq<ClientId>, orders: seq<seq<Id>>, client: ClientId, id: u32,
                                     bind: byte, deadline: Option<nat>)
    requires StateOk(s) && HoldsSlot(s, client, id, bind, deadline) && ClosesInTurn(s, due, orders) && client !in due
    ensures HoldsSlot(CloseAll(s, due, orders), client, id, bind, deadline)
    decreases |due|
  {
    if due != [] {
      var k := |due| - 1;
      TickKeepsOrder(s, due[..k], orders[..k]);
      HoldsTick(s, due[..k], orders[..k], client, id, bind, deadline);
      HoldsMessage(CloseAll(s, due[..k], orders[..k]), due[k], CloseRequest(orders[k]), client, id, bind, deadline);
    }
  }

  /** A player is due exactly if its deadline has come. */
  lemma DueOrNot(s: State, client: ClientId, id: u32, bind: byte, deadline: Option<nat>, due: seq<ClientId>, now: nat)
    requires StateOk(s) && HoldsSlot(s, client, id, bind, deadline) && AreDue(s.games, due, now)
    ensures client in due <==> deadline.Some? && deadline.value <= now
  {
    var mine := PlayerOf(s.games[id], client);
    assert InGame(s.games, id, mine) && mine.client == client;
    if client in due {
      var other, p :| InGame(s.games, other, p) && Due(p, now) && p.client == client;
      ListedPlays(s.games, other, p);
      OneGame(s.games, id, client);
    }
  }

  lemma HoldsDisconnection(s: State, c: ClientId, now: nat, client: ClientId, id: u32, bind: byte,
                           deadline: Option<nat>)
    requires StateOk(s) && HoldsSlot(s, client, id, bind, deadline) && c != client
    ensures HoldsSlot(Disconnecting(s, c, now), client, id, bind, deadline)
  {
    if GameOf(s.games, c) == Some(id) {
      HoldsStep(s.games[id], Disconnect(c, now + DISCONNECTED_PLAYER_TTL), client, bind, deadline);
    }
  }

  /** A player keeps game, slot and deadline through everything but its own close, its own disconnection, a
      restored connection on its slot, and a tick at or after its deadline. */
  lemma HoldsHappening(s: State, h: Happening, client: ClientId, id: u32, bind: byte, deadline: Option<nat>)
    requires StateOk(s) && HoldsSlot(s, client, id, bind, deadline) && Enabled(s, h)
    requires Spares(h, client, id, bind, deadline)
    ensures HoldsSlot(Next(s, h), client, id, bind, deadline)
  {
    match h
    case Message(c, r) => HoldsMessage(s, c, r, client, id, bind, deadline);
    case Tick(now, due, orders) =>
      DueOrNot(s, client, id, bind, deadline, due, now);
      HoldsTick(s, due, orders, client, id, bind, deadline);
    case Disconnected(c, now) => HoldsDisconnection(s, c, now, client, id, bind, deadline);
    case Connected(_) =>
  }

  predicate AllSpare(hs: seq<Happening>, client: ClientId, id: u32, bind: byte, deadline: Option<nat> := None) {
    forall i :: 0 <= i < |hs| ==> Spares(hs[i], client, id, bind, deadline)
  }

  lemma {:induction false} HoldsRunOfServer(s: State, hs: seq<Happening>, client: ClientId, id: u32, bind: byte,
                                            deadline: Option<nat>)
    requires StateOk(s) && HoldsSlot(s, client, id, bind, deadline) && IsHistory(s, hs)
    requires AllSpare(hs, client, id, bind, deadline)
    ensures StateOk(Final(s, hs)) && HoldsSlot(Final(s, hs), client, id, bind, deadline)
    decreases hs
  {
    if hs != [] {
      assert Spares(hs[0], client, id, bind, deadline);
      OrderStep(s, hs[0]);
      HoldsHappening(s, hs[0], client, id, bind, deadline);
      assert forall i :: 0 <= i < |hs[1..]| ==> hs[1..][i] == hs[i + 1];
      HoldsRunOfServer(Next(s, hs[0]), hs[1..], client, id, bind, deadline);
    }
  }

  // ---- broken connections ----

  lemma DisconnectionHolds(s: State, client: ClientId, now: nat, id: u32, bind: byte, deadline: Option<nat>)
    requires StateOk(s) && HoldsSlot(s, client, id, bind, deadline)
    ensures HoldsSlot(Disconnecting(s, client, now), client, id, bind, Some(now + 60))
  {
    OneGame(s.games, id, client);
    WithPlayerHas(s.games[id], client, PlayerOf(s.games[id], client).(deadline := Some(now + 60)));
  }

  lemma TickRemoves(s: State, now: nat, due: seq<ClientId>, orders: seq<seq<Id>>, client: ClientId, id: u32, bind: byte,
                    deadline: nat)
    requires StateOk(s) && HoldsSlot(s, client, id, bind, Some(deadline)) && deadline <= now
    requires AreDue(s.games, due, now) && ClosesInTurn(s, due, orders)
    ensures GameOf(CloseAll(s, due, orders).games, client).None?
  {
    DueOrNot(s, client, id, bind, Some(deadline), due, now);
    ClosedIsGone(s, due, orders, client);
  }

  lemma CloseLeavesNone(s: State, client: ClientId, order: seq<Id>)
    requires StateOk(s) && WalksDoomed(s, client, order)
    ensures GameOf(Closing(s, client, order).0.games, client).None?
  {
    var games' := Closing(s, client, order).0.games;
    ClosingRemoves(s, client, order);
    forall id: u32 ensures !Plays(games', id, client) {
      if Plays(games', id, client) {
        assert InGame(games', id, PlayerOf(games'[id], client));
      }
    }
  }

  lemma {:induction false} ClosedIsGone(s: State, due: seq<ClientId>, orders: seq<seq<Id>>, client: ClientId)
    requires StateOk(s) && ClosesInTurn(s, due, orders) && client in due
    ensures GameOf(CloseAll(s, due, orders).games, client).None?
    decreases |due|
  {
    var k := |due| - 1;
    var s1 := CloseAll(s, due[..k], orders[..k]);
    TickKeepsOrder(s, due[..k], orders[..k]);
    if due[k] == client {
      CloseLeavesNone(s1, client, orders[k]);
    } else {
      ClosedIsGone(s, due[..k], orders[..k], client);
      CloseActs(s1, due[k], orders[k]);
      GoneAct(s1, due[k], ActOf(s1, due[k], CloseRequest(orders[k])), client);
    }
  }

  /** A player whose connection breaks stays, on its slot, for 60 seconds: no earlier tick removes it. The
      first tick from then on does, unless it closed or was restored. */
  lemma BrokenExpires(s: State, client: ClientId, now: nat, id: u32, bind: byte, deadline: Option<nat>,
                      hs: seq<Happening>, h: Happening)
    requires StateOk(s) && HoldsSlot(s, client, id, bind, deadline)
    requires IsHistory(Disconnecting(s, client, now), hs) && AllSpare(hs, client, id, bind, Some(now + 60))
    ensures HoldsSlot(Final(Disconnecting(s, client, now), hs), client, id, bind, Some(now + 60))
    ensures var s' := Final(Disconnecting(s, client, now), hs);
            h.Tick? && h.now >= now + 60 && Enabled(s', h) ==> GameOf(Next(s', h).games, client).None?
  {
    DisconnectionHolds(s, client, now, id, bind, deadline);
    DisconnectingKeepsOrder(s, client, now);
    HoldsRunOfServer(Disconnecting(s, client, now), hs, client, id, bind, Some(now + 60));
    var s' := Final(Disconnecting(s, client, now), hs);
    if h.Tick? && h.now >= now + 60 && Enabled(s', h) {
      TickRemoves(s', h.now, h.due, h.orders, client, id, bind, now + 60);
    }
  }

  // ---- restored connections ----

  predicate Joins(h: Happening, c: ClientId) {
    h.Message? && h.client == c && (h.request.AttachRequest? || h.request.RestoreRequest?)
  }

  lemma GoneAct(s: State, c: ClientId, a: Act, gone: ClientId)
    requires StateOk(s) && Sound(s, c, a) && GameOf(s.games, gone).None?
    requires a.Acts? && (a.e.AttachTo? || a.e.Restore?) ==> c != gone
    ensures GameOf(GamesAfter(s, c, a), gone).None?
  {
    forall id: u32 ensures !Plays(GamesAfter(s, c, a), id, gone) {
      assert !Plays(s.games, id, gone);
      if a.Acts? && a.id == id && HasClient(After(a.g, a.e), gone) {
        ClientsStep(a.g, a.e, gone);
      }
    }
  }

  lemma {:induction false} GoneTick(s: State, due: seq<ClientId>, orders: seq<seq<Id>>, gone: ClientId)
    requires StateOk(s) && ClosesInTurn(s, due, orders) && GameOf(s.games, gone).None?
    ensures GameOf(CloseAll(s, due, orders).games, gone).None?
    decreases |due|
  {
    if due != [] {
      var k := |due| - 1;
      var s1 := CloseAll(s, due[..k], orders[..k]);
      TickKeepsOrder(s, due[..k], orders[..k]);
      GoneTick(s, due[..k], orders[..k], gone);
      CloseActs(s1, due[k], orders[k]);
      GoneAct(s1, due[k], ActOf(s1, due[k], CloseRequest(orders[k])), gone);
    }
  }

  lemma GoneDisconnection(s: State, c: ClientId, now: nat, gone: ClientId)
    requires StateOk(s) && GameOf(s.games, gone).None?
    ensures GameOf(Disconnecting(s, c, now).games, gone).None?
  {
    var s' := Disconnecting(s, c, now);
    forall id: u32 ensures !Plays(s'.games, id, gone) {
      assert !Plays(s.games, id, gone);
      if GameOf(s.games, c) == Some(id) && Plays(s'.games, id, gone) {
        ClientsStep(s.games[id], Disconnect(c, now + DISCONNECTED_PLAYER_TTL), gone);
      }
    }
  }

  /** A connection without a player gets none unless it asks for one. */
  lemma GoneHappening(s: State, h: Happening, gone: ClientId)
    requires StateOk(s) && Enabled(s, h) && GameOf(s.games, gone).None? && !Joins(h, gone)
    ensures GameOf(Next(s, h).games, gone).None?
  {
    match h
    case Message(c, r) =>
      MessageActsInGames(s, c, r);
      GoneAct(s, c, ActOf(s, c, r), gone);
    case Tick(_, due, orders) => GoneTick(s, due, orders, gone);
    case Disconnected(c, now) => GoneDisconnection(s, c, now, gone);
    case Connected(_) =>
  }

  predicate NeverJoins(hs: seq<Happening>, c: ClientId) {
    forall i :: 0 <= i < |hs| ==> !Joins(hs[i], c)
  }

  lemma {:induction false} GoneRunOfServer(s: State, hs: seq<Happening>, gone: ClientId)
    requires StateOk(s) && IsHistory(s, hs) && GameOf(s.games, gone).None? && NeverJoins(hs, gone)
    ensures GameOf(Final(s, hs).games, gone).None?
    decreases hs
  {
    if hs != [] {
      assert !Joins(hs[0], gone);
      OrderStep(s, hs[0]);
      GoneHappening(s, hs[0], gone);
      assert forall i :: 0 <= i < |hs[1..]| ==> hs[1..][i] == hs[i + 1];
      GoneRunOfServer(Next(s, hs[0]), hs[1..], gone);
    }
  }

  lemma Replaces(s: State, client: ClientId, data: seq<byte>)
    requires StateOk(s) && GameOf(s.games, client).None? && |data| == 5 && ReplacedBy(s, data).Some?
    ensures var s1 := Restoring(s, client, data).0;
            && StateOk(s1) && HoldsSlot(s1, client, FromLe32(data), data[4])
            && GameOf(s1.games, ReplacedBy(s, data).value).None?
  {
    var id, bind, s1 := FromLe32(data), data[4], Restoring(s, client, data).0;
    var i := IndexOfBind(s.games[id].players, bind).value;
    assert !Plays(s.games, id, client);
    RestoreTakesOver(s.games[id], client, bind, i);
    RestoringKeepsOrder(s, client, data);
    ListedPlays(s.games, id, s.games[id].players[i]);
    forall other: u32 ensures !Plays(s1.games, other, s.games[id].players[i].client) {
      assert other != id ==> !Plays(s.games, other, s.games[id].players[i].client);
    }
  }

  lemma OnlyAnswer(s: State, s': State, answer: Message, client: ClientId, q: ClientId)
    requires DistinctIds(s'.clients) && s'.sent == s.sent + SendTo(s'.clients, Notice({client}, answer), false)
    ensures s.sent <= s'.sent
    ensures MessagesTo(s'.sent[|s.sent|..], q) == if q == client && q in s'.clients then [answer] else []
  {
    assert s'.sent[|s.sent|..] == SendTo(s'.clients, Notice({client}, answer), false);
    SentTo(s'.clients, Notice({client}, answer), false, q);
  }

  /** Who is listed afterwards: everybody but the connection whose slot was taken over. */
  lemma ListedAfterRestoring(s: State, client: ClientId, data: seq<byte>, c: ClientId)
    requires StateOk(s) && GameOf(s.games, client).None? && |data| == 5
    ensures c in Restoring(s, client, data).0.clients
            <==> c in s.clients && !(ReplacedBy(s, data) == Some(c) && c != client)
  {
    if ReplacedBy(s, data).Some? {
      WithoutMembers(s.clients, ReplacedBy(s, data).value);
    }
  }

  /** Five bytes that name a game and a slot are answered with 1 exactly if a player of that game holds the
      slot, and exactly if afterwards the connection plays in that game on that slot. The sender gets the
      answer once, and nobody else gets anything; the connection that held the slot is no longer listed. */
  lemma RestoreAnswer(s: State, client: ClientId, data: seq<byte>, q: ClientId)
    requires StateOk(s) && GameOf(s.games, client).None? && client in s.clients && |data| == 5
    ensures var s', id, bind := Restoring(s, client, data).0, FromLe32(data), data[4];
            var ok := SlotTaken(s.games, id, bind);
            && s.sent <= s'.sent
            && MessagesTo(s'.sent[|s.sent|..], q) == (if q == client then [RestoreResponse(ok)] else [])
            && (ok <==> HoldsSlot(s', client, id, bind))
            && (!ok ==> s'.games == s.games && s'.clients == s.clients)
            && (q in s'.clients <==>
                  q in s.clients && !(Plays(s.games, id, q) && PlayerOf(s.games[id], q).bind == bind))
  {
    var s', id, bind := Restoring(s, client, data).0, FromLe32(data), data[4];
    RestoreActs(s, client, data);
    RestoringKeepsOrder(s, client, data);
    ListedAfterRestoring(s, client, data, client);
    ListedAfterRestoring(s, client, data, q);
    assert !Plays(s.games, id, client);
    if ReplacedBy(s, data).Some? {
      Replaces(s, client, data);
      OnSlot(s, id, bind, q);
      assert SlotTaken(s.games, id, bind);
    } else {
      assert !SlotTaken(s.games, id, bind);
    }
    OnlyAnswer(s, s', RestoreResponse(SlotTaken(s.games, id, bind)), client, q);
  }

  /** The connection that plays on a slot. */
  lemma OnSlot(s: State, id: u32, bind: byte, q: ClientId)
    requires StateOk(s) && id in s.games && IndexOfBind(s.games[id].players, bind).Some?
    ensures Plays(s.games, id, q) && PlayerOf(s.games[id], q).bind == bind
            <==> s.games[id].players[IndexOfBind(s.games[id].players, bind).value].client == q
  {
    var g, i := s.games[id], IndexOfBind(s.games[id].players, bind).value;
    PlayerAt(g, g.players[i].client, i);
    if Plays(s.games, id, q) && PlayerOf(g, q).bind == bind {
      DistinctKey(g.players, (o: Player) => o.bind as int, PlayerOf(g, q), g.players[i]);
    }
  }

  /** A connection that restores a slot, whatever deadline its player had, plays there from then on:
      through every tick, however late, and through everything the replaced connection still reports,
      its disconnection included. The replaced one has no player unless it attaches or restores again. */
  lemma RestoredSurvives(s: State, client: ClientId, data: seq<byte>, hs: seq<Happening>)
    requires StateOk(s) && GameOf(s.games, client).None? && |data| == 5 && ReplacedBy(s, data).Some?
    requires IsHistory(Restoring(s, client, data).0, hs) && AllSpare(hs, client, FromLe32(data), data[4])
    ensures var s' := Final(Restoring(s, client, data).0, hs);
            && GameOf(s'.games, client) == Some(FromLe32(data)) && HoldsSlot(s', client, FromLe32(data), data[4])
            && (NeverJoins(hs, ReplacedBy(s, data).value) ==> GameOf(s'.games, ReplacedBy(s, data).value).None?)
  {
    var id, bind, s1 := FromLe32(data), data[4], Restoring(s, client, data).0;
    Replaces(s, client, data);
    HoldsRunOfServer(s1, hs, client, id, bind, None);
    OneGame(Final(s1, hs).games, id, client);
    if NeverJoins(hs, ReplacedBy(s, data).value) {
      GoneRunOfServer(s1, hs, ReplacedBy(s, data).value);
    }
  }

  // ---- joining ----

  /** Attaching touches no other game than the one that is asked for. */
  lemma AttachTouchesOne(s: State, client: ClientId, r: Request)
    requires StateOk(s) && r.AttachRequest? && Acceptable(s, client, r) && |r.data| == 4 && FromLe32(r.data) != 0
    ensures forall other :: other != FromLe32(r.data) ==>
              && (other in Handle(s, client, r).0.games <==> other in s.games)
              && (other in s.games ==> Handle(s, client, r).0.games[other] == s.games[other])
  {
    MessageActsInGames(s, client, r);
    AttachesToListed(s, client, r);
  }

  /** Attaching with an id: the connection plays in that game afterwards, exactly if the game is listed and
      has a free slot; otherwise nothing changes. */
  lemma AttachById(s: State, client: ClientId, r: Request)
    requires StateOk(s) && r.AttachRequest? && Acceptable(s, client, r) && |r.data| == 4 && FromLe32(r.data) != 0
    ensures var s', id := Handle(s, client, r).0, FromLe32(r.data);
            && (Plays(s'.games, id, client) <==> id in s.games && |s.games[id].players| < 30)
            && (Handle(s, client, r).1.Done? <==> Plays(s'.games, id, client))
            && (Handle(s, client, r).1.Failed? ==> s' == s)
  {
    var id := FromLe32(r.data);
    assert !Plays(s.games, id, client);
    if id in s.games {
      JoinedOrFull(s.games[id], AttachTo(client, r.birth, r.unix, r.walk));
      if |s.games[id].players| == 30 {
        SettleNothing(s, id, GameFull, false);
      }
    }
  }

  lemma JoinedOrFull(g: Game, e: Event)
    requires GameOk(g) && e.AttachTo? && Possible(g, e)
    ensures |g.players| <= 30 && (Step(g, e).outcome.Done? <==> |g.players| < 30)
    ensures HasClient(After(g, e), e.client) <==> |g.players| < 30
    ensures |g.players| == 30 ==> After(g, e) == g && Step(g, e).notices == []
  {
    FullGame(g.players);
    if |g.players| < 30 {
      AttachOk(g, e);
      PlayerAt(After(g, e), e.client, |g.players|);
    }
  }

  /** The game that is asked for with id 0, unless there is one under its id. */
  lemma NextGame(s: State, data: seq<byte>)
    requires |data| == 4 && FromLe32(data) == 0 && NextId(s.lastId) !in s.games
    ensures var s1, id := WithGame(s, FromLe32(data)), GameAsked(s, FromLe32(data));
            && id == (if s.lastId == 0xFFFF_FFFF then 0 else s.lastId + 1) && s1.lastId == id
            && s1.games == s.games[id := NewGame(id)] && s1.clients == s.clients && s1.sent == s.sent
  {
  }

  /** Attaching with id 0 opens a game under the next id, unless there is one already, which happens only
      after 2^32 games; its first player gets slot 1. */
  lemma AttachToNew(s: State, client: ClientId, r: Request)
    requires StateOk(s) && r.AttachRequest? && Acceptable(s, client, r) && |r.data| == 4 && FromLe32(r.data) == 0
    requires NextId(s.lastId) !in s.games
    ensures var s', id := Handle(s, client, r).0, if s.lastId == 0xFFFF_FFFF then 0 else s.lastId + 1;
            && s'.lastId == id && Handle(s, client, r).1.Done?
            && s'.games.Keys == s.games.Keys + {id}
            && (forall other :: other in s.games ==> s'.games[other] == s.games[other])
            && Plays(s'.games, id, client) && |s'.games[id].players| == 1 && PlayerOf(s'.games[id], client).bind == 1
            && s'.games[id].vanjects == map[] && s'.games[id].worlds == []
  {
    NextGame(s, r.data);
    FirstJoins(NewGame(GameAsked(s, 0)), AttachTo(client, r.birth, r.unix, r.walk));
  }

  lemma FirstJoins(g: Game, e: Event)
    requires g.players == [] && e.AttachTo? && Possible(g, e)
    ensures Step(g, e).outcome.Done? && After(g, e).players == [NewPlayer(e.client, 1)]
    ensures HasClient(After(g, e), e.client) && PlayerOf(After(g, e), e.client).bind == 1
    ensures After(g, e).vanjects == g.vanjects && After(g, e).worlds == g.worlds
  {
    assert !Used(g.players, 1);
    assert After(g, e).players[0] == NewPlayer(e.client, 1);
  }

  // ---- refused messages ----

  lemma RefusedAct(g: Game, e: Event)
    requires Possible(g, e) && Step(g, e).outcome.Failed? && !e.EnterWorld?
    ensures Step(g, e).game == g && Step(g, e).notices == []
  {
  }

  lemma RefusedMade(s: State, c: ClientId, a: Act, after: (State, Outcome), realtime: bool)
    requires StateOk(s) && Made(s, c, a, after, realtime) && after.1.Failed?
    requires a.Acts? ==> a.id in s.games && !a.e.EnterWorld?
    ensures after.0.games == s.games && after.0.clients == s.clients && after.0.sent == s.sent
  {
    if a.Acts? {
      RefusedAct(a.g, a.e);
      assert SendAll(s.clients, [], realtime) == [];
      assert s.games[a.id := a.g] == s.games;
    }
  }

  lemma AttachesToListed(s: State, c: ClientId, r: Request)
    requires r.AttachRequest? && Acceptable(s, c, r)
    ensures var a := ActOf(s, c, r);
            a.Acts? && FromLe32(r.data) != 0 ==> a.id == FromLe32(r.data) && a.id in s.games
  {
  }

  /** A refused message changes nothing and is not answered, with two exceptions: a refused SET_WORLD may have
      taken its sender out of its old world, and asking for a new game may use up an id. */
  lemma RefusedChangesNothing(s: State, c: ClientId, r: Request)
    requires StateOk(s) && Acceptable(s, c, r) && Handle(s, c, r).1.Failed? && !r.EnterRequest?
    requires r.AttachRequest? && |r.data| == 4 ==> FromLe32(r.data) != 0
    ensures var s' := Handle(s, c, r).0;
            s'.games == s.games && s'.clients == s.clients && s'.sent == s.sent
  {
    if !r.RestoreRequest? {
      MessageActs(s, c, r);
      if r.AttachRequest? && ActOf(s, c, r).Acts? {
        AttachesToListed(s, c, r);
      }
      RefusedMade(s, c, ActOf(s, c, r), Handle(s, c, r), AsRealtime(r));
    }
  }

  /** Well-formed messages that only a player may send. */
  predicate NeedsPlayer(r: Request) {
    match r
    case UpdateRequest(data) => |data| >= 4
    case CreateRequest(data) => CreateFromSlice(data).Ok?
    case TransferRequest(data) => CheckTransfer(data).Ok?
    case AttachRequest(_, _, _, _) => false
    case RestoreRequest(_) => false
    case _ => true
  }

  /** Packets that are too short or too long, and messages about objects from a connection without a player,
      are refused for that reason; the size of a packet is looked at first. */
  lemma MalformedIsReported(s: State, c: ClientId, r: Request)
    requires StateOk(s) && Acceptable(s, c, r)
    ensures var o := Handle(s, c, r).1;
            && (r.CreateRequest? && |r.data| < 14 ==> o == Failed(VanjectParse(SliceTooSmall)))
            && (r.UpdateRequest? && |r.data| < 4 ==> o == Failed(UpdateTooSmall))
            && (r.TransferRequest? && |r.data| < 24 ==> o == Failed(TransferTooSmall))
            && (r.AttachRequest? && |r.data| != 4 ==> o == Failed(PayloadInvalid))
            && (r.RestoreRequest? && |r.data| != 5 ==> o == Failed(PayloadInvalid))
            && (GameOf(s.games, c).None? && NeedsPlayer(r) ==> o == Failed(PlayerNotFound))
  {
  }
}
