/** Who plays where, on the whole server: what a connected player knows from the notices that are really
    submitted to it. */
module Presence {
  import opened Wrappers
  import opened Bytes
  import opened Vanjects
  import opened Messages
  import opened Games
  import opened Steps
  import opened Servers
  import opened Rosters
  import opened Runs
  import opened Sessions

  // ---- what is submitted because of one message ----

  /** A connected player is submitted what the step of its own game addresses to it. */
  lemma DeltaOfMessage(s: State, c: ClientId, r: Request, q: ClientId)
    requires StateOk(s) && Acceptable(s, c, r) && !r.RestoreRequest? && q in s.clients
    ensures var a, s' := ActOf(s, c, r), Handle(s, c, r).0;
            && Sound(s, c, a) && s.sent <= s'.sent
            && Delta(s, s', q) == if a.Acts? then AddressedTo(Step(a.g, a.e).notices, q) else []
  {
    var a, s' := ActOf(s, c, r), Handle(s, c, r).0;
    MessageActs(s, c, r);
    if a.Acts? {
      DeltaOf(s, s', SendAll(s.clients, Step(a.g, a.e).notices, AsRealtime(r)), q);
      SubmittedIsAddressed(s.clients, Step(a.g, a.e).notices, AsRealtime(r), q);
    } else {
      DeltaOf(s, s', [], q);
    }
  }

  /** The roster after something happened. */
  ghost function RosterAfter(r: Roster, s: State, h: Happening, q: ClientId): Roster
    requires StateOk(s) && Enabled(s, h)
  {
    SentGrows(s, h);
    TrackAll(r, Delta(s, Next(s, h), q))
  }

  /** Connected, on its slot, and not about to expire; what it knows of the other slots is right. */
  ghost predicate Informed(r: Roster, s: State, q: ClientId, id: u32, own: byte) {
    && q in s.clients && HoldsSlot(s, q, id, own)
    && StatusOk(s.games[id]) && Knows(r, s.games[id], own)
  }

  lemma InformedFollows(r: Roster, s: State, q: ClientId, id: u32, own: byte)
    requires StateOk(s) && Informed(r, s, q, id, own)
    ensures Rosters.Follows(r, s.games[id], q, own)
  {
  }

  /** Who starts to play in the game with what happens. */
  ghost function StarterOf(s: State, h: Happening, id: u32): set<byte>
    requires Enabled(s, h)
  {
    if h.Message? && var a := ActOf(s, h.client, h.request); a.Acts? && a.id == id && Starts(a.g, a.e)
    then {PlayerOf(ActOf(s, h.client, h.request).g, h.client).bind} else {}
  }

  lemma SparedAct(s: State, c: ClientId, r: Request, q: ClientId, id: u32, own: byte)
    requires StateOk(s) && Acceptable(s, c, r) && Spares(Message(c, r), q, id, own)
    requires var a := ActOf(s, c, r); a.Acts? && a.id == id
    ensures Attends(ActOf(s, c, r).e, q, own)
  {
  }

  /** A step of the player's own game. */
  lemma HereTracked(r: Roster, s: State, c: ClientId, a: Act, q: ClientId, id: u32, own: byte)
    requires StateOk(s) && Sound(s, c, a) && a.Acts? && a.id == id && Informed(r, s, q, id, own)
    requires Attends(a.e, q, own)
    ensures var r' := TrackAll(r, AddressedTo(Step(a.g, a.e).notices, q));
            && r.Keys <= r'.Keys && id in GamesAfter(s, c, a)
            && Rosters.Follows(r', GamesAfter(s, c, a)[id], q, own)
            && (Starts(a.g, a.e) ==> PlayerOf(a.g, a.e.client).bind in r')
  {
    InformedFollows(r, s, q, id, own);
    RosterStep(r, a.g, a.e, q, own);
  }

  /** A step of another game. */
  lemma ElsewhereKept(s: State, c: ClientId, a: Act, id: u32)
    requires Sound(s, c, a) && a.Acts? && a.id != id && id in s.games
    ensures id in GamesAfter(s, c, a) && GamesAfter(s, c, a)[id] == s.games[id]
  {
  }

  lemma ElsewhereUntracked(s: State, c: ClientId, a: Act, q: ClientId, id: u32)
    requires StateOk(s) && Sound(s, c, a) && a.Acts? && a.id != id && Plays(s.games, id, q)
    ensures AddressedTo(Step(a.g, a.e).notices, q) == []
    ensures id in GamesAfter(s, c, a) && GamesAfter(s, c, a)[id] == s.games[id]
  {
    ElsewhereIsAnother(s, c, a, q, id);
    ElsewhereKept(s, c, a, id);
    assert HasClient(a.g, q) ==> Plays(s.games, a.id, q);
    StaysInGame(a.g, a.e, q);
    AddressedNone(Step(a.g, a.e).notices, q);
  }

  lemma InformedByMessage(r: Roster, s: State, c: ClientId, m: Request, q: ClientId, id: u32, own: byte)
    requires StateOk(s) && Acceptable(s, c, m) && !m.RestoreRequest? && Spares(Message(c, m), q, id, own)
    requires Informed(r, s, q, id, own)
    ensures var r' := RosterAfter(r, s, Message(c, m), q);
            r.Keys + StarterOf(s, Message(c, m), id) <= r'.Keys && Informed(r', Handle(s, c, m).0, q, id, own)
  {
    var a := ActOf(s, c, m);
    DeltaOfMessage(s, c, m, q);
    MessageActsInGames(s, c, m);
    HoldsMessage(s, c, m, q, id, own, None);
    StaysListed(s, c, m, q, id, own);
    if a.Acts? && a.id == id {
      SparedAct(s, c, m, q, id, own);
      HereTracked(r, s, c, a, q, id, own);
    } else if a.Acts? {
      ElsewhereUntracked(s, c, a, q, id);
    }
  }

  /** A slot that changes hands is still played on, or not. */
  lemma RestoredUntracked(r: Roster, s: State, c: ClientId, a: Act, q: ClientId, id: u32, own: byte)
    requires StateOk(s) && Sound(s, c, a) && Informed(r, s, q, id, own) && (a.Acts? ==> a.e.Restore?)
    requires a.Acts? && a.id == id ==> a.e.bind != own
    ensures var games := GamesAfter(s, c, a);
            id in games ==> StatusOk(games[id]) && Knows(r, games[id], own)
  {
    if a.Acts? && a.id == id {
      InformedFollows(r, s, q, id, own);
      AfterOther(r, a.g, a.e, q, own);
    }
  }

  lemma InformedByRestore(r: Roster, s: State, c: ClientId, m: Request, q: ClientId, id: u32, own: byte)
    requires StateOk(s) && Acceptable(s, c, m) && m.RestoreRequest? && Spares(Message(c, m), q, id, own)
    requires Informed(r, s, q, id, own)
    ensures RosterAfter(r, s, Message(c, m), q) == r && Informed(r, Handle(s, c, m).0, q, id, own)
    ensures StarterOf(s, Message(c, m), id) == {}
  {
    OneGame(s.games, id, q);
    RestoreUnheard(s, c, m, q);
    MessageActsInGames(s, c, m);
    HoldsMessage(s, c, m, q, id, own, None);
    StaysListed(s, c, m, q, id, own);
    RestoredUntracked(r, s, c, ActOf(s, c, m), q, id, own);
  }

  /** The answer to a restored connection is for that one. */
  lemma RestoreUnheard(s: State, c: ClientId, m: Request, q: ClientId)
    requires StateOk(s) && Acceptable(s, c, m) && m.RestoreRequest? && c != q
    ensures s.sent <= Handle(s, c, m).0.sent && Delta(s, Handle(s, c, m).0, q) == []
  {
    var s' := Handle(s, c, m).0;
    ListedAfter(s, c, m);
    if |m.data| == 5 {
      RestoreActs(s, c, m.data);
      OnlyAnswer(s, s', RestoreResponse(SlotTaken(s.games, FromLe32(m.data), m.data[4])), c, q);
    } else {
      DeltaOf(s, s', [], q);
    }
  }

  // ---- whatever happens ----

  lemma {:induction false} InformedByTick(r: Roster, s: State, due: seq<ClientId>, orders: seq<seq<Id>>, q: ClientId,
                                          id: u32, own: byte)
    requires StateOk(s) && ClosesInTurn(s, due, orders) && q !in due && Informed(r, s, q, id, own)
    ensures var s' := CloseAll(s, due, orders);
            && StateOk(s') && s.sent <= s'.sent
            && r.Keys <= TrackAll(r, Delta(s, s', q)).Keys && Informed(TrackAll(r, Delta(s, s', q)), s', q, id, own)
    decreases |due|
  {
    if due == [] {
      DeltaOf(s, s, [], q);
    } else {
      var k := |due| - 1;
      var s1 := CloseAll(s, due[..k], orders[..k]);
      InformedByTick(r, s, due[..k], orders[..k], q, id, own);
      InformedByClose(TrackAll(r, Delta(s, s1, q)), s1, due[k], orders[k], q, id, own);
      DeltaAppend(s, s1, Closing(s1, due[k], orders[k]).0, q);
      TrackAppend(r, Delta(s, s1, q), Delta(s1, Closing(s1, due[k], orders[k]).0, q));
    }
  }

  lemma InformedByClose(r: Roster, s: State, c: ClientId, order: seq<Id>, q: ClientId, id: u32, own: byte)
    requires StateOk(s) && WalksDoomed(s, c, order) && c != q && Informed(r, s, q, id, own)
    ensures var s' := Closing(s, c, order).0;
            && StateOk(s') && s.sent <= s'.sent
            && r.Keys <= TrackAll(r, Delta(s, s', q)).Keys && Informed(TrackAll(r, Delta(s, s', q)), s', q, id, own)
  {
    MessageKeepsOrder(s, c, CloseRequest(order));
    SentGrowsInMessage(s, c, CloseRequest(order));
    InformedByMessage(r, s, c, CloseRequest(order), q, id, own);
  }

  lemma InformedByDisconnection(r: Roster, s: State, c: ClientId, now: nat, q: ClientId, id: u32, own: byte)
    requires StateOk(s) && c != q && Informed(r, s, q, id, own)
    ensures Informed(r, Disconnecting(s, c, now), q, id, own)
    ensures RosterAfter(r, s, Disconnected(c, now), q) == r
  {
    WithoutMembers(s.clients, c);
    HoldsDisconnection(s, c, now, q, id, own, None);
    DeltaOf(s, Disconnecting(s, c, now), [], q);
    if GameOf(s.games, c) == Some(id) {
      InformedFollows(r, s, q, id, own);
      AfterOther(r, s.games[id], Disconnect(c, now + DISCONNECTED_PLAYER_TTL), q, own);
    }
  }

  /** Whatever happens anywhere on the server, what a player knows stays right, and who starts to play in its
      game becomes known. */
  lemma InformedStep(r: Roster, s: State, h: Happening, q: ClientId, id: u32, own: byte)
    requires StateOk(s) && Enabled(s, h) && Spares(h, q, id, own) && Informed(r, s, q, id, own)
    ensures Informed(RosterAfter(r, s, h, q), Next(s, h), q, id, own)
    ensures r.Keys + StarterOf(s, h, id) <= RosterAfter(r, s, h, q).Keys
  {
    match h
    case Message(c, m) =>
      if m.RestoreRequest? {
        InformedByRestore(r, s, c, m, q, id, own);
      } else {
        InformedByMessage(r, s, c, m, q, id, own);
      }
    case Tick(now, due, orders) =>
      DueOrNot(s, q, id, own, None, due, now);
      InformedByTick(r, s, due, orders, q, id, own);
    case Disconnected(c, now) => InformedByDisconnection(r, s, c, now, q, id, own);
    case Connected(c) => DeltaOf(s, Next(s, h), [], q);
  }

  // ---- runs ----

  ghost function RosterAtEnd(r: Roster, s: State, hs: seq<Happening>, q: ClientId): Roster
    requires StateOk(s) && IsHistory(s, hs)
    decreases hs
  {
    if hs == [] then r
    else
      OrderStep(s, hs[0]);
      RosterAtEnd(RosterAfter(r, s, hs[0], q), Next(s, hs[0]), hs[1..], q)
  }

  ghost function StartersIn(s: State, hs: seq<Happening>, id: u32): set<byte>
    requires IsHistory(s, hs)
    decreases hs
  {
    if hs == [] then {} else StarterOf(s, hs[0], id) + StartersIn(Next(s, hs[0]), hs[1..], id)
  }

  lemma {:induction false} InformedRun(r: Roster, s: State, hs: seq<Happening>, q: ClientId, id: u32, own: byte)
    requires StateOk(s) && IsHistory(s, hs) && AllSpare(hs, q, id, own) && Informed(r, s, q, id, own)
    ensures StateOk(Final(s, hs)) && Informed(RosterAtEnd(r, s, hs, q), Final(s, hs), q, id, own)
    ensures r.Keys + StartersIn(s, hs, id) <= RosterAtEnd(r, s, hs, q).Keys
    decreases hs
  {
    if hs != [] {
      assert Spares(hs[0], q, id, own);
      OrderStep(s, hs[0]);
      InformedStep(r, s, hs[0], q, id, own);
      assert forall i :: 0 <= i < |hs[1..]| ==> hs[1..][i] == hs[i + 1];
      InformedRun(RosterAfter(r, s, hs[0], q), Next(s, hs[0]), hs[1..], q, id, own);
    }
  }

  /** Every game of the server is in order as to who plays. */
  ghost predicate AllStatusOk(s: State) {
    forall id :: id in s.games ==> StatusOk(s.games[id])
  }

  lemma StatusReplaced(games: map<u32, Game>, id: u32, g: Game)
    requires StatusOk(g) && forall other :: other in games ==> StatusOk(games[other])
    ensures forall other :: other in WithoutEmpty(games, id, g) ==> StatusOk(WithoutEmpty(games, id, g)[other])
  {
  }

  lemma StatusBefore(s: State, c: ClientId, a: Act)
    requires StateOk(s) && AllStatusOk(s) && Sound(s, c, a) && a.Acts?
    ensures GameOk(a.g) && StatusOk(a.g)
  {
  }

  lemma StatusOfAct(s: State, c: ClientId, a: Act)
    requires StateOk(s) && AllStatusOk(s) && Sound(s, c, a)
    ensures forall id :: id in GamesAfter(s, c, a) ==> StatusOk(GamesAfter(s, c, a)[id])
  {
    if a.Acts? {
      StatusBefore(s, c, a);
      StatusStep(a.g, a.e);
      StatusReplaced(s.games, a.id, After(a.g, a.e));
    }
  }

  lemma {:induction false} StatusOfTick(s: State, due: seq<ClientId>, orders: seq<seq<Id>>)
    requires StateOk(s) && AllStatusOk(s) && ClosesInTurn(s, due, orders)
    ensures AllStatusOk(CloseAll(s, due, orders))
    decreases |due|
  {
    if due != [] {
      var k := |due| - 1;
      var s1 := CloseAll(s, due[..k], orders[..k]);
      TickKeepsOrder(s, due[..k], orders[..k]);
      StatusOfTick(s, due[..k], orders[..k]);
      CloseActs(s1, due[k], orders[k]);
      StatusOfAct(s1, due[k], ActOf(s1, due[k], CloseRequest(orders[k])));
    }
  }

  lemma StatusOfDisconnection(s: State, c: ClientId, now: nat)
    requires StateOk(s) && AllStatusOk(s)
    ensures AllStatusOk(Disconnecting(s, c, now))
  {
    if GameOf(s.games, c).Some? {
      StatusStep(s.games[GameOf(s.games, c).value], Disconnect(c, now + DISCONNECTED_PLAYER_TTL));
    }
  }

  lemma AllStatusStep(s: State, h: Happening)
    requires StateOk(s) && AllStatusOk(s) && Enabled(s, h)
    ensures AllStatusOk(Next(s, h))
  {
    match h
    case Message(c, r) =>
      MessageActsInGames(s, c, r);
      StatusOfAct(s, c, ActOf(s, c, r));
    case Tick(_, due, orders) => StatusOfTick(s, due, orders);
    case Disconnected(c, now) => StatusOfDisconnection(s, c, now);
    case Connected(_) =>
  }

  lemma {:induction false} AllStatusRun(s: State, hs: seq<Happening>)
    requires StateOk(s) && AllStatusOk(s) && IsHistory(s, hs)
    ensures AllStatusOk(Final(s, hs))
    decreases hs
  {
    if hs != [] {
      OrderStep(s, hs[0]);
      AllStatusStep(s, hs[0]);
      AllStatusRun(Next(s, hs[0]), hs[1..]);
    }
  }

  /** On any server that was ever reached, a connected player knows nothing. From then on, until it closes or
      breaks, through everything that happens there: of every slot of its game on which somebody has started
      to play since, what was submitted to it tells whether somebody plays there now, and in which world. */
  lemma ServerTellsWhoPlays(before: seq<Happening>, q: ClientId, hs: seq<Happening>, id: u32, own: byte, b: byte)
    requires IsHistory(NEW_SERVER, before)
    requires var s := Final(NEW_SERVER, before);
             && q in s.clients && Plays(s.games, id, q) && PlayerOf(s.games[id], q).bind == own
             && IsHistory(s, hs) && AllSpare(hs, q, id, own) && b in StartersIn(s, hs, id) && b != own
    ensures var s := Final(NEW_SERVER, before);
            StateOk(s) && id in Final(s, hs).games && Tells(RosterAtEnd(map[], s, hs, q), Final(s, hs).games[id], b)
  {
    var s := Final(NEW_SERVER, before);
    ReachableServer(before);
    AllStatusRun(NEW_SERVER, before);
    InformedRun(map[], s, hs, q, id, own);
    KnownTells(RosterAtEnd(map[], s, hs, q), Final(s, hs).games[id], own, b);
  }
}
