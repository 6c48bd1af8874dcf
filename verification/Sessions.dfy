/** What a connected client makes of all that the server submits to it while connections come and go and
    other games go on. */
module Sessions {
  import opened Wrappers
  import opened Bytes
  import opened Seqs
  import opened Vanjects
  import opened Messages
  import opened Games
  import opened Handlers
  import opened Steps
  import opened Snapshots
  import opened Lifecycle
  import opened Replica
  import opened Servers
  import opened Runs

  // ---- who hears what ----

  lemma StrangerIsNoRecipient(g: Game, sender: ClientId, id: Id, q: ClientId)
    requires !HasClient(g, q)
    ensures q !in Everyone(g) && q !in Others(g, sender) && q !in InWorld(g, id.world, sender)
    ensures q !in Audience(g, id, sender)
  {
  }

  lemma ObjectNoticesStayInGame(g: Game, e: Event, q: ClientId)
    requires Possible(g, e) && !HasClient(g, q) && e.client != q
    requires e.Create? || e.Update? || e.Delete? || e.TransferItem?
    ensures NoneTo(Step(g, e).notices, q)
  {
    match e
    case Create(c, v) => StrangerIsNoRecipient(g, c, v.id, q);
    case Update(c, data) => StrangerIsNoRecipient(g, c, FromRaw(FromLe32(data)), q);
    case Delete(c, id, _) => StrangerIsNoRecipient(g, c, id, q);
    case TransferItem(c, t) => StrangerIsNoRecipient(g, c, t.v.id, q);
    case _ =>
  }

  lemma DepartureStaysInGame(g: Game, client: ClientId, order: seq<Id>, q: ClientId)
    requires HasClient(g, client) && !HasClient(g, q)
    requires PlayerOf(g, client).world.Some? ==> Lists(order, Doomed(g, PlayerOf(g, client).bind))
    ensures NoneTo(LeaveWorld(g, client, order).notices, q)
  {
    StrangerIsNoRecipient(g, client, NO_ID, q);
    if PlayerOf(g, client).world.Some? {
      DoomedInside(g, PlayerOf(g, client).bind, order);
      DeletionsTo(g, PlayerOf(g, client).bind, Others(g, client), order);
    }
  }

  lemma StrangerAfterLeaving(g: Game, client: ClientId, q: ClientId)
    requires HasClient(g, client) && !HasClient(g, q)
    ensures !HasClient(WithPlayer(g, client, PlayerOf(g, client).(world := None)), q)
    ensures !HasClient(Left(g, client), q)
  {
    var g1 := WithPlayer(g, client, PlayerOf(g, client).(world := None));
    if HasClient(g1, q) {
      ClientsUpdated(g, client, PlayerOf(g, client).(world := None), q);
    }
    assert Left(g, client).players == g1.players;
  }

  lemma GreetingStaysInGame(g: Game, client: ClientId, world: byte, created: byte, list: seq<byte>, q: ClientId)
    requires HasClient(g, client) && !HasClient(g, q) && client != q
    ensures NoneTo(Starting(g, PlayerOf(g, client)) + Greeting(g, client, world, created, list), q)
  {
    StrangerIsNoRecipient(g, client, NO_ID, q);
  }

  lemma EnteringStaysInGame(g: Game, client: ClientId, world: byte, created: byte, walk: seq<Id>, q: ClientId)
    requires HasClient(g, client) && !HasClient(g, q) && client != q && Lists(walk, g.vanjects.Keys)
    ensures NoneTo(Enter(g, client, world, created, walk).notices, q)
  {
    var p := PlayerOf(g, client);
    var list := TotalPlayersData(WithPlayer(g, client, Placed(p, world)));
    WalkInside(g.vanjects, walk);
    var shown := Snapshot(g.vanjects, world, p.bind, walk);
    var head, snapshot, end :=
      Starting(g, p) + Greeting(g, client, world, created, list), AnnounceAll(shown, {client}),
      [Notice({client}, SnapshotEnd(world))];
    GreetingStaysInGame(g, client, world, created, list, q);
    AnnouncedTo(shown, {client});
    assert NoneTo(head + snapshot + end, q);
    assert Enter(g, client, world, created, walk).notices == head + snapshot + end;
  }

  lemma ArrivalStaysInGame(g: Game, client: ClientId, world: byte, ySize: u16, walk: seq<Id>, q: ClientId)
    requires HasClient(g, client) && !HasClient(g, q) && client != q && Lists(walk, g.vanjects.Keys)
    ensures NoneTo(Arrive(g, client, world, ySize, walk).notices, q)
  {
    if WorldOf(g.worlds, world).None? {
      EnteringStaysInGame(g.(worlds := g.worlds + [World(world, ySize)]), client, world, 1, walk, q);
    } else {
      EnteringStaysInGame(g, client, world, 0, walk, q);
    }
  }

  lemma EntryStaysInGame(g: Game, e: Event, q: ClientId)
    requires e.EnterWorld? && Possible(g, e) && !HasClient(g, q) && e.client != q
    ensures NoneTo(Step(g, e).notices, q)
  {
    if Switches(g, e.client, e.world) {
      StrangerAfterLeaving(g, e.client, q);
      DepartureStaysInGame(g, e.client, e.order, q);
    }
    ArrivalStaysInGame(AfterSwitch(g, e.client, e.world), e.client, e.world, e.ySize, e.walk, q);
  }

  lemma CloseStaysInGame(g: Game, e: Event, q: ClientId)
    requires e.Close? && Possible(g, e) && !HasClient(g, q)
    ensures NoneTo(Step(g, e).notices, q)
  {
    WithPlayerHas(g, e.client, PlayerOf(g, e.client).(world := None));
    DepartureStaysInGame(g, e.client, e.order, q);
    StrangerAfterLeaving(g, e.client, q);
    var left := LeaveWorld(g, e.client, e.order);
    StrangerIsNoRecipient(left.game, e.client, NO_ID, q);
    assert NoneTo(FinishNotices(left.game, e.client), q);
  }

  lemma AttachStaysInGame(g: Game, e: Event, q: ClientId)
    requires e.AttachTo? && Possible(g, e) && e.client != q
    ensures NoneTo(Step(g, e).notices, q)
  {
    if Step(g, e).outcome.Done? {
      WalkInside(g.vanjects, e.walk);
      AnnouncedGlobalsTo(Globals(g.vanjects, e.walk), {e.client});
    }
  }

  /** What happens in a game is submitted to its players and to the sender only. */
  lemma StaysInGame(g: Game, e: Event, q: ClientId)
    requires Possible(g, e) && !HasClient(g, q) && e.client != q
    ensures NoneTo(Step(g, e).notices, q)
  {
    match e
    case Leave(c, order) => DepartureStaysInGame(g, c, order, q);
    case EnterWorld(_, _, _, _, _) => EntryStaysInGame(g, e, q);
    case Close(_, _) => CloseStaysInGame(g, e, q);
    case AttachTo(_, _, _, _) => AttachStaysInGame(g, e, q);
    case Restore(_, _) =>
    case Disconnect(_, _) =>
    case Profile(_, _, _, _, _) =>
    case Configure(_) =>
    case _ => ObjectNoticesStayInGame(g, e, q);
  }

  // ---- what is submitted to one connection ----

  /** What was submitted to a connection between two states. */
  function Delta(s: State, s': State, q: ClientId): seq<Message>
    requires s.sent <= s'.sent
  {
    MessagesTo(s'.sent[|s.sent|..], q)
  }

  lemma DeltaOf(s: State, s': State, more: seq<Sent>, q: ClientId)
    requires s'.sent == s.sent + more
    ensures s.sent <= s'.sent && Delta(s, s', q) == MessagesTo(more, q)
  {
    assert s'.sent[|s.sent|..] == more;
  }

  lemma DeltaAppend(s: State, s1: State, s2: State, q: ClientId)
    requires s.sent <= s1.sent && s1.sent <= s2.sent
    ensures s.sent <= s2.sent && Delta(s, s2, q) == Delta(s, s1, q) + Delta(s1, s2, q)
  {
    assert s2.sent[|s.sent|..] == s1.sent[|s.sent|..] + s2.sent[|s1.sent|..];
    MessagesToAppend(s1.sent[|s.sent|..], s2.sent[|s1.sent|..], q);
  }

  lemma DeltaReplayed(view: View, s: State, s': State, ns: seq<Notice>, realtime: bool, q: ClientId)
    requires DistinctIds(s.clients) && q in s.clients && s'.sent == s.sent + SendAll(s.clients, ns, realtime)
    ensures s.sent <= s'.sent && ReplayMessages(view, Delta(s, s', q)) == ReplayAll(view, ns, q)
  {
    DeltaOf(s, s', SendAll(s.clients, ns, realtime), q);
    SubmittedIsAddressed(s.clients, ns, realtime, q);
    ReplayAddressed(view, ns, q);
  }

  lemma SentGrowsInMessage(s: State, c: ClientId, r: Request)
    requires StateOk(s) && Acceptable(s, c, r)
    ensures s.sent <= Handle(s, c, r).0.sent
  {
    if r.RestoreRequest? {
    } else {
      MessageActs(s, c, r);
    }
  }

  lemma {:induction false} SentGrowsInTick(s: State, due: seq<ClientId>, orders: seq<seq<Id>>)
    requires StateOk(s) && ClosesInTurn(s, due, orders)
    ensures s.sent <= CloseAll(s, due, orders).sent
    decreases |due|
  {
    if due != [] {
      var k := |due| - 1;
      TickKeepsOrder(s, due[..k], orders[..k]);
      SentGrowsInTick(s, due[..k], orders[..k]);
      SentGrowsInMessage(CloseAll(s, due[..k], orders[..k]), due[k], CloseRequest(orders[k]));
    }
  }

  /** Nothing that was submitted is taken back. */
  lemma SentGrows(s: State, h: Happening)
    requires StateOk(s) && Enabled(s, h)
    ensures s.sent <= Next(s, h).sent
  {
    match h
    case Message(c, r) => SentGrowsInMessage(s, c, r);
    case Tick(_, due, orders) => SentGrowsInTick(s, due, orders);
    case _ =>
  }

  // ---- the view of one connection ----

  /** A client applies its own command as soon as the server accepts it. */
  ghost function Commanded(view: View, s: State, h: Happening, q: ClientId, bind: byte): View
    requires Enabled(s, h)
  {
    if h.Message? && h.client == q && ActOf(s, q, h.request).Acts? && Handle(s, q, h.request).1.Done?
    then Apply(view, ActOf(s, q, h.request).e, bind) else view
  }

  /** The view of `q` after something happened: its own command, then all that it was submitted. */
  ghost function ViewAfter(view: View, s: State, h: Happening, q: ClientId, bind: byte): View
    requires StateOk(s) && Enabled(s, h)
  {
    SentGrows(s, h);
    ReplayMessages(Commanded(view, s, h, q, bind), Delta(s, Next(s, h), q))
  }

  /** Connected, on its slot, in its world, and not about to expire. */
  ghost predicate Stationed(s: State, q: ClientId, id: u32, world: byte, bind: byte) {
    q in s.clients && HoldsSlot(s, q, id, bind) && PlayerOf(s.games[id], q).world == Some(world)
  }

  /** Nothing ends the stay: the client does not leave, move on, close or break, and nobody restores its slot. */
  predicate Stays(h: Happening, q: ClientId, id: u32, world: byte, bind: byte) {
    && Spares(h, q, id, bind)
    && (h.Message? && h.client == q ==>
          !h.request.LeaveRequest? && (h.request.EnterRequest? && h.request.data != [] ==> h.request.data[0] == world))
  }

  /** Another player creates a vanger with a body of less than 25 bytes in this world of this game. */
  ghost predicate SilentHere(s: State, h: Happening, q: ClientId, id: u32, world: byte)
    requires Enabled(s, h)
  {
    h.Message? && var a := ActOf(s, h.client, h.request); a.Acts? && a.id == id && Silent(a.g, a.e, q, world)
  }

  ghost predicate AgreesOn(view: View, s: State, id: u32, world: byte, bind: byte) {
    id in s.games && Agree(view, s.games[id].vanjects, world as int, bind)
  }

  // ---- one act ----

  lemma ActDisturbs(s: State, c: ClientId, r: Request, q: ClientId, id: u32, world: byte, bind: byte)
    requires StateOk(s) && Acceptable(s, c, r) && Stays(Message(c, r), q, id, world, bind)
    requires var a := ActOf(s, c, r); a.Acts? && a.id == id
    ensures Undisturbed(ActOf(s, c, r).e, q, world, bind)
  {
  }

  lemma NoneAddressed(view: View, ns: seq<Notice>, q: ClientId)
    requires NoneTo(ns, q)
    ensures ReplayAll(view, ns, q) == view
  {
    ReplayQuiet(view, ns, q);
  }

  /** What an act in another game leaves alone. */
  lemma ElsewhereSeen(view: View, s: State, c: ClientId, a: Act, q: ClientId, id: u32)
    requires StateOk(s) && Sound(s, c, a) && a.Acts? && a.id != id && Plays(s.games, id, q)
    requires c != q
    ensures ReplayAll(view, Step(a.g, a.e).notices, q) == view
    ensures id in GamesAfter(s, c, a) && GamesAfter(s, c, a)[id] == s.games[id]
  {
    assert HasClient(a.g, q) ==> Plays(s.games, a.id, q);
    StaysInGame(a.g, a.e, q);
    NoneAddressed(view, Step(a.g, a.e).notices, q);
  }

  /** The sender of an act in another game is another connection. */
  lemma ElsewhereIsAnother(s: State, c: ClientId, a: Act, q: ClientId, id: u32)
    requires StateOk(s) && Sound(s, c, a) && a.Acts? && a.id != id && Plays(s.games, id, q)
    ensures c != q
  {
    OneGame(s.games, id, q);
  }

  /** What an act in the player's own game does to its view. */
  lemma HereSeen(view: View, s: State, c: ClientId, a: Act, q: ClientId, id: u32, world: byte, bind: byte)
    requires StateOk(s) && Sound(s, c, a) && a.Acts? && a.id == id
    requires Stationed(s, q, id, world, bind) && AgreesOn(view, s, id, world, bind)
    requires Undisturbed(a.e, q, world, bind)
    ensures id in GamesAfter(s, c, a) && Present(GamesAfter(s, c, a)[id], q, world, bind)
    ensures Agree(Seen(view, a.g, a.e, q, bind), GamesAfter(s, c, a)[id].vanjects, world as int, bind)
            <==> !Silent(a.g, a.e, q, world)
  {
    PresentStep(a.g, a.e, q, world, bind);
    AgreeStep(view, a.g, a.e, q, world, bind);
  }

  // ---- one message ----

  lemma NothingSeen(view: View, s: State, c: ClientId, r: Request, q: ClientId, bind: byte)
    requires StateOk(s) && Acceptable(s, c, r) && MadeBy(s, c, r) && ActOf(s, c, r).Nothing?
    ensures ViewAfter(view, s, Message(c, r), q, bind) == view
  {
    DeltaOf(s, Handle(s, c, r).0, [], q);
  }

  lemma ActSeen(view: View, s: State, c: ClientId, r: Request, q: ClientId, bind: byte)
    requires StateOk(s) && Acceptable(s, c, r) && MadeBy(s, c, r) && ActOf(s, c, r).Acts? && q in s.clients
    ensures var a := ActOf(s, c, r);
            ViewAfter(view, s, Message(c, r), q, bind) == Seen(view, a.g, a.e, q, bind)
  {
    var a, seen := ActOf(s, c, r), Commanded(view, s, Message(c, r), q, bind);
    DeltaReplayed(seen, s, Handle(s, c, r).0, Step(a.g, a.e).notices, AsRealtime(r), q);
  }

  /** The view changes as the act says. */
  lemma MessageSeen(view: View, s: State, c: ClientId, r: Request, q: ClientId, bind: byte)
    requires StateOk(s) && Acceptable(s, c, r) && !r.RestoreRequest? && q in s.clients
    ensures var a := ActOf(s, c, r);
            && Sound(s, c, a)
            && ViewAfter(view, s, Message(c, r), q, bind) == if a.Acts? then Seen(view, a.g, a.e, q, bind) else view
  {
    MessageActs(s, c, r);
    if ActOf(s, c, r).Acts? {
      ActSeen(view, s, c, r, q, bind);
    } else {
      NothingSeen(view, s, c, r, q, bind);
    }
  }

  /** Another connection that is restored is answered, and nobody else. */
  lemma RestoreSeen(view: View, s: State, c: ClientId, r: Request, q: ClientId, bind: byte)
    requires StateOk(s) && Acceptable(s, c, r) && r.RestoreRequest? && c != q
    ensures ViewAfter(view, s, Message(c, r), q, bind) == view
  {
    var s' := Handle(s, c, r).0;
    ListedAfter(s, c, r);
    if |r.data| == 5 {
      RestoreActs(s, c, r.data);
      OnlyAnswer(s, s', RestoreResponse(SlotTaken(s.games, FromLe32(r.data), r.data[4])), c, q);
    } else {
      DeltaOf(s, s', [], q);
    }
  }

  lemma StaysListed(s: State, c: ClientId, r: Request, q: ClientId, id: u32, bind: byte)
    requires StateOk(s) && Acceptable(s, c, r) && q in s.clients && HoldsSlot(s, q, id, bind) && !Claims(r, id, bind)
    ensures q in Handle(s, c, r).0.clients
  {
    if !r.RestoreRequest? {
      MessageActs(s, c, r);
    } else if |r.data| == 5 && ReplacedBy(s, r.data).Some? {
      var other, replaced := FromLe32(r.data), ReplacedBy(s, r.data).value;
      var i := IndexOfBind(s.games[other].players, r.data[4]).value;
      WithoutMembers(s.clients, replaced);
      ListedPlays(s.games, other, s.games[other].players[i]);
      if replaced == q {
        OneGame(s.games, id, q);
      }
    }
  }

  lemma WorldKept(s: State, c: ClientId, a: Act, q: ClientId, id: u32, world: byte, bind: byte)
    requires StateOk(s) && Sound(s, c, a) && Stationed(s, q, id, world, bind)
    requires a.Acts? && a.id == id ==> Undisturbed(a.e, q, world, bind)
    ensures id in GamesAfter(s, c, a) && Present(GamesAfter(s, c, a)[id], q, world, bind)
  {
    if a.Acts? && a.id == id {
      PresentStep(a.g, a.e, q, world, bind);
    }
  }

  lemma StationedMessage(s: State, c: ClientId, r: Request, q: ClientId, id: u32, world: byte, bind: byte)
    requires StateOk(s) && Acceptable(s, c, r) && Stationed(s, q, id, world, bind)
    requires Stays(Message(c, r), q, id, world, bind)
    ensures Stationed(Handle(s, c, r).0, q, id, world, bind)
  {
    var a := ActOf(s, c, r);
    HoldsMessage(s, c, r, q, id, bind, None);
    StaysListed(s, c, r, q, id, bind);
    MessageActsInGames(s, c, r);
    if a.Acts? && a.id == id {
      ActDisturbs(s, c, r, q, id, world, bind);
    }
    WorldKept(s, c, a, q, id, world, bind);
  }

  lemma AgreeMessage(view: View, s: State, c: ClientId, r: Request, q: ClientId, id: u32, world: byte, bind: byte)
    requires StateOk(s) && Acceptable(s, c, r) && !r.RestoreRequest?
    requires Stationed(s, q, id, world, bind) && AgreesOn(view, s, id, world, bind)
    requires Stays(Message(c, r), q, id, world, bind)
    ensures AgreesOn(ViewAfter(view, s, Message(c, r), q, bind), Handle(s, c, r).0, id, world, bind)
            <==> !SilentHere(s, Message(c, r), q, id, world)
  {
    var a := ActOf(s, c, r);
    MessageSeen(view, s, c, r, q, bind);
    MessageActsInGames(s, c, r);
    if a.Acts? && a.id == id {
      ActDisturbs(s, c, r, q, id, world, bind);
      HereSeen(view, s, c, a, q, id, world, bind);
    } else if a.Acts? {
      ElsewhereIsAnother(s, c, a, q, id);
      ElsewhereSeen(view, s, c, a, q, id);
    }
  }

  lemma AgreeRestore(view: View, s: State, c: ClientId, r: Request, q: ClientId, id: u32, world: byte, bind: byte)
    requires StateOk(s) && Acceptable(s, c, r) && r.RestoreRequest?
    requires Stationed(s, q, id, world, bind) && AgreesOn(view, s, id, world, bind)
    ensures AgreesOn(ViewAfter(view, s, Message(c, r), q, bind), Handle(s, c, r).0, id, world, bind)
    ensures !SilentHere(s, Message(c, r), q, id, world)
  {
    OneGame(s.games, id, q);
    RestoreSeen(view, s, c, r, q, bind);
    MessageActsInGames(s, c, r);
  }

  // ---- whatever happens ----

  lemma {:induction false} AgreeTick(view: View, s: State, due: seq<ClientId>, orders: seq<seq<Id>>, q: ClientId,
                                     id: u32, world: byte, bind: byte)
    requires StateOk(s) && ClosesInTurn(s, due, orders) && q !in due
    requires Stationed(s, q, id, world, bind) && AgreesOn(view, s, id, world, bind)
    ensures var s' := CloseAll(s, due, orders);
            && StateOk(s') && Stationed(s', q, id, world, bind) && s.sent <= s'.sent
            && AgreesOn(ReplayMessages(view, Delta(s, s', q)), s', id, world, bind)
    decreases |due|
  {
    if due == [] {
      DeltaOf(s, s, [], q);
    } else {
      var k := |due| - 1;
      var s1, h := CloseAll(s, due[..k], orders[..k]), Message(due[k], CloseRequest(orders[k]));
      AgreeTick(view, s, due[..k], orders[..k], q, id, world, bind);
      var view1 := ReplayMessages(view, Delta(s, s1, q));
      CloseAgrees(view1, s1, due[k], orders[k], q, id, world, bind);
      DeltaAppend(s, s1, Next(s1, h), q);
      ReplayMessagesAppend(view, Delta(s, s1, q), Delta(s1, Next(s1, h), q));
    }
  }

  lemma CloseAgrees(view: View, s: State, c: ClientId, order: seq<Id>, q: ClientId, id: u32, world: byte, bind: byte)
    requires StateOk(s) && WalksDoomed(s, c, order) && c != q
    requires Stationed(s, q, id, world, bind) && AgreesOn(view, s, id, world, bind)
    ensures var s' := Closing(s, c, order).0;
            && StateOk(s') && Stationed(s', q, id, world, bind) && s.sent <= s'.sent
            && AgreesOn(ReplayMessages(view, Delta(s, s', q)), s', id, world, bind)
  {
    var r := CloseRequest(order);
    MessageKeepsOrder(s, c, r);
    SentGrowsInMessage(s, c, r);
    StationedMessage(s, c, r, q, id, world, bind);
    AgreeMessage(view, s, c, r, q, id, world, bind);
  }

  lemma AgreeDisconnection(view: View, s: State, c: ClientId, now: nat, q: ClientId, id: u32, world: byte, bind: byte)
    requires StateOk(s) && c != q && Stationed(s, q, id, world, bind) && AgreesOn(view, s, id, world, bind)
    ensures Stationed(Disconnecting(s, c, now), q, id, world, bind)
    ensures AgreesOn(ViewAfter(view, s, Disconnected(c, now), q, bind), Disconnecting(s, c, now), id, world, bind)
  {
    WithoutMembers(s.clients, c);
    HoldsDisconnection(s, c, now, q, id, bind, None);
    DeltaOf(s, Disconnecting(s, c, now), [], q);
    if GameOf(s.games, c) == Some(id) {
      PresentStep(s.games[id], Disconnect(c, now + DISCONNECTED_PLAYER_TTL), q, world, bind);
    }
  }

  /** Whatever happens anywhere on the server, a player that stays is stationed as before and its view
      is the server's, exactly unless the one silent creation happens in its world. */
  lemma AgreeHappening(view: View, s: State, h: Happening, q: ClientId, id: u32, world: byte, bind: byte)
    requires StateOk(s) && Enabled(s, h) && Stays(h, q, id, world, bind)
    requires Stationed(s, q, id, world, bind) && AgreesOn(view, s, id, world, bind)
    ensures Stationed(Next(s, h), q, id, world, bind)
    ensures AgreesOn(ViewAfter(view, s, h, q, bind), Next(s, h), id, world, bind) <==> !SilentHere(s, h, q, id, world)
  {
    match h
    case Message(c, r) =>
      StationedMessage(s, c, r, q, id, world, bind);
      if r.RestoreRequest? {
        AgreeRestore(view, s, c, r, q, id, world, bind);
      } else {
        AgreeMessage(view, s, c, r, q, id, world, bind);
      }
    case Tick(now, due, orders) =>
      DueOrNot(s, q, id, bind, None, due, now);
      AgreeTick(view, s, due, orders, q, id, world, bind);
    case Disconnected(c, now) => AgreeDisconnection(view, s, c, now, q, id, world, bind);
    case Connected(c) => DeltaOf(s, Next(s, h), [], q);
  }

  // ---- runs ----

  predicate AllStay(hs: seq<Happening>, q: ClientId, id: u32, world: byte, bind: byte) {
    forall i :: 0 <= i < |hs| ==> Stays(hs[i], q, id, world, bind)
  }

  ghost predicate NeverSilentHere(s: State, hs: seq<Happening>, q: ClientId, id: u32, world: byte)
    requires IsHistory(s, hs)
    decreases hs
  {
    hs != [] ==> !SilentHere(s, hs[0], q, id, world) && NeverSilentHere(Next(s, hs[0]), hs[1..], q, id, world)
  }

  /** In every state of the run the view, replayed from what was submitted until then, is the server's. */
  ghost predicate MirrorsThroughout(view: View, s: State, hs: seq<Happening>, q: ClientId, id: u32, world: byte,
                                    bind: byte)
    requires StateOk(s) && IsHistory(s, hs)
    decreases hs
  {
    AgreesOn(view, s, id, world, bind)
    && if hs == [] then true
       else
         OrderStep(s, hs[0]);
         MirrorsThroughout(ViewAfter(view, s, hs[0], q, bind), Next(s, hs[0]), hs[1..], q, id, world, bind)
  }

  lemma {:induction false} MirrorsRun(view: View, s: State, hs: seq<Happening>, q: ClientId, id: u32, world: byte,
                                      bind: byte)
    requires StateOk(s) && IsHistory(s, hs) && AllStay(hs, q, id, world, bind)
    requires Stationed(s, q, id, world, bind) && AgreesOn(view, s, id, world, bind)
    ensures MirrorsThroughout(view, s, hs, q, id, world, bind) <==> NeverSilentHere(s, hs, q, id, world)
    decreases hs
  {
    if hs != [] {
      assert Stays(hs[0], q, id, world, bind);
      OrderStep(s, hs[0]);
      AgreeHappening(view, s, hs[0], q, id, world, bind);
      assert forall i :: 0 <= i < |hs[1..]| ==> hs[1..][i] == hs[i + 1];
      var view1, s1 := ViewAfter(view, s, hs[0], q, bind), Next(s, hs[0]);
      if AgreesOn(view1, s1, id, world, bind) {
        MirrorsRun(view1, s1, hs[1..], q, id, world, bind);
      }
    }
  }

  /** A connected player enters a world with an empty view. */
  ghost predicate Enters(s: State, q: ClientId, r: Request, id: u32, world: byte, bind: byte) {
    && q in s.clients && r.EnterRequest? && Acceptable(s, q, r) && Handle(s, q, r).1.Done?
    && GameOf(s.games, q) == Some(id) && PlayerOf(s.games[id], q).bind == bind && r.data[0] == world
  }

  lemma OwnEntryMirrors(s: State, a: Act, q: ClientId)
    requires StateOk(s) && a.Acts? && a.e.EnterWorld? && Sound(s, q, a) && Step(a.g, a.e).outcome.Done?
    ensures var bind, games := PlayerOf(a.g, q).bind, GamesAfter(s, q, a);
            && a.id in games && Present(games[a.id], q, a.e.world, bind)
            && Agree(Seen(map[], a.g, a.e, q, bind), games[a.id].vanjects, a.e.world as int, bind)
  {
    AfterOwnEntry(map[], a.g, a.e, q, PlayerOf(a.g, q).bind);
    OwnPlayerKept(a.g, a.e);
  }

  lemma EntryAct(s: State, q: ClientId, r: Request, id: u32, world: byte, bind: byte)
    requires StateOk(s) && Enters(s, q, r, id, world, bind)
    ensures var a := ActOf(s, q, r);
            && a.Acts? && a.id == id && a.g == s.games[id] && a.e.EnterWorld? && a.e.world == world && Sound(s, q, a)
            && Step(a.g, a.e).outcome.Done?
            && Handle(s, q, r).0.games == GamesAfter(s, q, a) && Handle(s, q, r).0.clients == s.clients
  {
    MessageActs(s, q, r);
  }

  lemma EntryMirrors(s: State, q: ClientId, r: Request, id: u32, world: byte, bind: byte)
    requires StateOk(s) && Attended(s) && Enters(s, q, r, id, world, bind)
    ensures StateOk(Handle(s, q, r).0) && Stationed(Handle(s, q, r).0, q, id, world, bind)
    ensures AgreesOn(ViewAfter(map[], s, Message(q, r), q, bind), Handle(s, q, r).0, id, world, bind)
  {
    EntryAct(s, q, r, id, world, bind);
    OwnEntryMirrors(s, ActOf(s, q, r), q);
    MessageKeepsOrder(s, q, r);
    MessageSeen(map[], s, q, r, q, bind);
    AttendedStep(s, Message(q, r));
  }

  /** On any server that was ever reached, a player enters a world with an empty view. From then on, for
      as long as it stays, while other connections come, play, break, expire and return, in its game and
      in others: its view, made of its own accepted commands and of nothing but what the server submits
      to it, is the server's table of that world, exactly when no other player creates a vanger there
      with a body of less than 25 bytes. */
  lemma ServerReplica(before: seq<Happening>, q: ClientId, r: Request, hs: seq<Happening>, id: u32, world: byte,
                      bind: byte)
    requires IsHistory(NEW_SERVER, before) && Enters(Final(NEW_SERVER, before), q, r, id, world, bind)
    requires var s := Final(NEW_SERVER, before);
             IsHistory(Handle(s, q, r).0, hs) && AllStay(hs, q, id, world, bind)
    ensures var s := Final(NEW_SERVER, before);
            && StateOk(s) && StateOk(Handle(s, q, r).0)
            && (MirrorsThroughout(ViewAfter(map[], s, Message(q, r), q, bind), Handle(s, q, r).0,
                                  hs, q, id, world, bind)
                <==> NeverSilentHere(Handle(s, q, r).0, hs, q, id, world))
  {
    var s := Final(NEW_SERVER, before);
    ReachableServer(before);
    EntryMirrors(s, q, r, id, world, bind);
    MirrorsRun(ViewAfter(map[], s, Message(q, r), q, bind), Handle(s, q, r).0, hs, q, id, world, bind);
  }

  // ---- a client that only watches ----

  /** The client sends nothing. */
  predicate OnlyWatches(hs: seq<Happening>, q: ClientId) {
    forall i :: 0 <= i < |hs| ==> !(hs[i].Message? && hs[i].client == q)
  }

  lemma {:induction false} WatcherRun(view: View, s: State, hs: seq<Happening>, q: ClientId, id: u32, world: byte,
                                      bind: byte)
    requires StateOk(s) && IsHistory(s, hs) && OnlyWatches(hs, q) && AllStay(hs, q, id, world, bind)
    requires Stationed(s, q, id, world, bind) && AgreesOn(view, s, id, world, bind)
    requires NeverSilentHere(s, hs, q, id, world)
    ensures s.sent <= Final(s, hs).sent
    ensures AgreesOn(ReplayMessages(view, Delta(s, Final(s, hs), q)), Final(s, hs), id, world, bind)
    decreases hs
  {
    if hs == [] {
      DeltaOf(s, s, [], q);
    } else {
      assert Stays(hs[0], q, id, world, bind) && !(hs[0].Message? && hs[0].client == q);
      var view1, s1 := ViewAfter(view, s, hs[0], q, bind), Next(s, hs[0]);
      OrderStep(s, hs[0]);
      SentGrows(s, hs[0]);
      AgreeHappening(view, s, hs[0], q, id, world, bind);
      assert forall i :: 0 <= i < |hs[1..]| ==> hs[1..][i] == hs[i + 1];
      WatcherRun(view1, s1, hs[1..], q, id, world, bind);
      DeltaAppend(s, s1, Final(s, hs), q);
      ReplayMessagesAppend(view, Delta(s, s1, q), Delta(s1, Final(s, hs), q));
    }
  }

  /** The submissions alone tell the table: all that was submitted to a player since it asked to enter a
      world, replayed from nothing, is the server's table of that world. */
  lemma SubmissionsTell(s: State, q: ClientId, r: Request, hs: seq<Happening>, id: u32, world: byte, bind: byte)
    requires StateOk(s) && Attended(s) && Enters(s, q, r, id, world, bind)
    requires var s1 := Handle(s, q, r).0;
             && IsHistory(s1, hs) && OnlyWatches(hs, q) && AllStay(hs, q, id, world, bind)
             && NeverSilentHere(s1, hs, q, id, world)
    ensures var s' := Final(Handle(s, q, r).0, hs);
            s.sent <= s'.sent && AgreesOn(ReplayMessages(map[], Delta(s, s', q)), s', id, world, bind)
  {
    var s1, view1 := Handle(s, q, r).0, ViewAfter(map[], s, Message(q, r), q, bind);
    SentGrowsInMessage(s, q, r);
    EntryMirrors(s, q, r, id, world, bind);
    EntryAct(s, q, r, id, world, bind);
    assert view1 == ReplayMessages(map[], Delta(s, s1, q));
    WatcherRun(view1, s1, hs, q, id, world, bind);
    DeltaAppend(s, s1, Final(s1, hs), q);
    ReplayMessagesAppend(map[], Delta(s, s1, q), Delta(s1, Final(s1, hs), q));
  }

  // ---- by type codes ----

  /** The view at the end of a run. */
  ghost function ViewAtEnd(view: View, s: State, hs: seq<Happening>, q: ClientId, bind: byte): View
    requires StateOk(s) && IsHistory(s, hs)
    decreases hs
  {
    if hs == [] then view
    else
      OrderStep(s, hs[0]);
      ViewAtEnd(ViewAfter(view, s, hs[0], q, bind), Next(s, hs[0]), hs[1..], q, bind)
  }

  lemma {:induction false} MirrorsAtEnd(view: View, s: State, hs: seq<Happening>, q: ClientId, id: u32, world: byte,
                                        bind: byte)
    requires StateOk(s) && IsHistory(s, hs) && MirrorsThroughout(view, s, hs, q, id, world, bind)
    ensures AgreesOn(ViewAtEnd(view, s, hs, q, bind), Final(s, hs), id, world, bind)
    decreases hs
  {
    if hs != [] {
      OrderStep(s, hs[0]);
      MirrorsAtEnd(ViewAfter(view, s, hs[0], q, bind), Next(s, hs[0]), hs[1..], q, id, world, bind);
    }
  }

  /** In terms of the raw ids: at the end of any such run, every vanger, slot, device and shell of another
      player in the world, and everything that lies there, is in the view as it is stored; and what the view
      shows of these is stored. */
  lemma EverythingIsSeen(s: State, q: ClientId, r: Request, hs: seq<Happening>, id: u32, world: byte, bind: byte)
    requires StateOk(s) && Attended(s) && Enters(s, q, r, id, world, bind)
    requires var s1 := Handle(s, q, r).0;
             IsHistory(s1, hs) && AllStay(hs, q, id, world, bind) && NeverSilentHere(s1, hs, q, id, world)
    ensures StateOk(Handle(s, q, r).0) && id in Final(Handle(s, q, r).0, hs).games
    ensures var s1, view := Handle(s, q, r).0, ViewAfter(map[], s, Message(q, r), q, bind);
            SeesByCode(ViewAtEnd(view, s1, hs, q, bind), Final(s1, hs).games[id].vanjects, world as int, bind)
  {
    var s1, view := Handle(s, q, r).0, ViewAfter(map[], s, Message(q, r), q, bind);
    EntryMirrors(s, q, r, id, world, bind);
    MirrorsRun(view, s1, hs, q, id, world, bind);
    MirrorsAtEnd(view, s1, hs, q, id, world, bind);
    AgreeByCode(ViewAtEnd(view, s1, hs, q, bind), Final(s1, hs).games[id].vanjects, world as int, bind);
  }

  // ---- which submissions may be superseded ----

  lemma {:induction false} SentFlags(clients: seq<ClientId>, n: Notice, realtime: bool)
    ensures forall i :: 0 <= i < |SendTo(clients, n, realtime)| ==> SendTo(clients, n, realtime)[i].realtime == realtime
    decreases clients
  {
    if clients != [] {
      SentFlags(clients[..|clients| - 1], n, realtime);
    }
  }

  lemma {:induction false} AllSentFlags(clients: seq<ClientId>, ns: seq<Notice>, realtime: bool)
    ensures forall i :: 0 <= i < |SendAll(clients, ns, realtime)| ==>
              SendAll(clients, ns, realtime)[i].realtime == realtime
    decreases ns
  {
    if ns != [] {
      AllSentFlags(clients, ns[..|ns| - 1], realtime);
      SentFlags(clients, ns[|ns| - 1], realtime);
    }
  }

  /** The flag of what is submitted because of a message. */
  lemma FlagsOfMessage(s: State, c: ClientId, r: Request)
    requires StateOk(s) && Acceptable(s, c, r)
    ensures s.sent <= Handle(s, c, r).0.sent
    ensures forall x :: x in Handle(s, c, r).0.sent[|s.sent|..] ==> x.realtime == AsRealtime(r)
  {
    SentGrowsInMessage(s, c, r);
    var s' := Handle(s, c, r).0;
    if r.RestoreRequest? {
      FlagsOfRestore(s, c, r);
    } else {
      MessageActs(s, c, r);
      var a := ActOf(s, c, r);
      if a.Acts? {
        AllSentFlags(s.clients, Step(a.g, a.e).notices, AsRealtime(r));
        assert s'.sent[|s.sent|..] == SendAll(s.clients, Step(a.g, a.e).notices, AsRealtime(r));
      }
    }
  }

  lemma FlagsOfRestore(s: State, c: ClientId, r: Request)
    requires StateOk(s) && Acceptable(s, c, r) && r.RestoreRequest?
    ensures s.sent <= Handle(s, c, r).0.sent
    ensures forall x :: x in Handle(s, c, r).0.sent[|s.sent|..] ==> !x.realtime
  {
    var s' := Handle(s, c, r).0;
    if |r.data| == 5 {
      RestoreActs(s, c, r.data);
      var answer := RestoreResponse(SlotTaken(s.games, FromLe32(r.data), r.data[4]));
      SentFlags(s'.clients, Notice({c}, answer), false);
      assert s'.sent[|s.sent|..] == SendTo(s'.clients, Notice({c}, answer), false);
    }
  }

  /** Of all that the server submits, only updates of vangers, by their type code, may be superseded by newer
      ones; and these all may. */
  lemma OnlyVangersAreRealtime(s: State, c: ClientId, r: Request)
    requires StateOk(s) && Acceptable(s, c, r)
    ensures s.sent <= Handle(s, c, r).0.sent
    ensures forall x :: x in Handle(s, c, r).0.sent[|s.sent|..] ==>
              (x.realtime <==> r.UpdateRequest? && |r.data| >= 4 && GetVanjectType(FromLe32(r.data)) == 0x9_0000)
  {
    FlagsOfMessage(s, c, r);
    if r.UpdateRequest? && |r.data| >= 4 {
      RawToIdToRaw(FromLe32(r.data));
      TypeCode(FromRaw(FromLe32(r.data)));
    }
  }
}
