/** A client that replays the packets submitted to it holds the objects of its world as the server
    does. */
module Replica {
  import opened Wrappers
  import opened Bytes
  import opened Seqs
  import opened Vanjects
  import opened Messages
  import opened Games
  import opened Handlers
  import opened Steps
  import opened Tables
  import opened Snapshots

  type View = map<Id, Vanject>

  // ---- what a client does with a packet, and with its own accepted command ----

  function Replay(view: View, m: Message): View {
    match m
    case ObjectUpdate(v) => view[v.id := v]
    case ItemState(previous, v) => (if previous == NO_ID then view else view - {previous})[v.id := v]
    case ObjectDelete(id, _, _) => view - {id}
    case ItemRemoved(id, _, _) => view - {id}
    case _ => view
  }

  function ReplayAll(view: View, notices: seq<Notice>, q: ClientId): View
    decreases notices
  {
    if notices == [] then view
    else
      var first := notices[0];
      ReplayAll(if q in first.to then Replay(view, first.message) else view, notices[1..], q)
  }

  /** The fields of an UPDATE_OBJECT body, as its sender knows them. */
  function OwnUpdate(data: seq<byte>, bind: byte): Option<Vanject> {
    if |data| < 12 then None
    else
      var id := FromRaw(FromLe32(data));
      if id.kind == VANGER && |data| < 14 then None
      else Some(Vanject(id, bind, FromLe32(data[4..]), FromLe16(data[8..]), FromLe16(data[10..]), 0,
                        if id.kind == VANGER then data[14..] else data[12..]))
  }

  /** A client applies its own command as soon as the server accepts it. */
  function Apply(view: View, e: Event, bind: byte): View {
    match e
    case Create(_, v) => view[v.id := AsSent(v.(owner := bind))]
    case Update(_, data) =>
      (match OwnUpdate(data, bind)
       case Some(v) => view[v.id := v]
       case None => view)
    case Delete(_, id, _) => view - {id}
    case TransferItem(_, t) => (view - {t.oldId})[t.v.id := AsSent(t.v.(owner := bind))]
    case _ => view
  }

  ghost function Seen(view: View, g: Game, e: Event, q: ClientId, bind: byte): View
    requires Possible(g, e)
  {
    var r := Step(g, e);
    ReplayAll(if e.client == q && r.outcome.Done? then Apply(view, e, bind) else view, r.notices, q)
  }

  // ---- agreement ----

  /** What a player in the world is to see: the lying items, of type 11, and the vangers, slots, devices and
      shells, of types 9, 2, 1 and 3, of others. */
  predicate Visible(v: Vanject, world: int, bind: byte) {
    v.id.world as int == world
    && (v.id.kind as int == 11 || (v.id.kind as int in {9, 2, 1, 3} && v.owner != bind))
  }

  /** The same in terms of the raw id. */
  lemma VisibleByCode(v: Vanject, world: int, bind: byte)
    ensures Visible(v, world, bind) <==> ShownByCode(v, world, bind)
  {
    TypeCode(v.id);
  }

  lemma SnapshotIsVisible(world: int, bind: byte)
    ensures forall v :: InSnapshot(v, world, bind) <==> Visible(v, world, bind)
  {
  }

  /** The object under an id, if the player is to see it. */
  function Shown(t: map<Id, Vanject>, id: Id, world: int, bind: byte): Option<Vanject> {
    if id in t && Visible(t[id], world, bind) then Some(AsSent(t[id])) else None
  }

  /** The view restricted to what a snapshot shows is the table restricted in the same way. */
  ghost predicate Agree(view: View, t: map<Id, Vanject>, world: int, bind: byte) {
    forall id :: Shown(view, id, world, bind) == Shown(t, id, world, bind)
  }

  /** Agreement object by object, by type codes: what is stored and to be seen is in the view as it is
      stored, and what the view shows is stored. */
  ghost predicate SeesByCode(view: View, t: map<Id, Vanject>, world: int, bind: byte) {
    && (forall id :: id in t && ShownByCode(t[id], world, bind) ==> id in view && AsSent(view[id]) == AsSent(t[id]))
    && (forall id :: id in view && ShownByCode(view[id], world, bind) ==> id in t && AsSent(view[id]) == AsSent(t[id]))
  }

  lemma AgreeByCode(view: View, t: map<Id, Vanject>, world: int, bind: byte)
    ensures Agree(view, t, world, bind) <==> SeesByCode(view, t, world, bind)
  {
    forall v: Vanject ensures Visible(v, world, bind) <==> ShownByCode(v, world, bind) {
      VisibleByCode(v, world, bind);
    }
    if Agree(view, t, world, bind) {
      forall id | id in t && ShownByCode(t[id], world, bind)
        ensures id in view && AsSent(view[id]) == AsSent(t[id])
      {
        assert Shown(view, id, world, bind) == Shown(t, id, world, bind);
      }
      forall id | id in view && ShownByCode(view[id], world, bind)
        ensures id in t && AsSent(view[id]) == AsSent(t[id])
      {
        assert Shown(view, id, world, bind) == Shown(t, id, world, bind);
      }
    }
    if SeesByCode(view, t, world, bind) {
      forall id ensures Shown(view, id, world, bind) == Shown(t, id, world, bind) {
        SameShown(view, t, id, world, bind);
      }
    }
  }

  lemma SameShown(view: View, t: map<Id, Vanject>, id: Id, world: int, bind: byte)
    requires SeesByCode(view, t, world, bind)
    ensures Shown(view, id, world, bind) == Shown(t, id, world, bind)
  {
    if id in t {
      VisibleByCode(t[id], world, bind);
    }
    if id in view {
      VisibleByCode(view[id], world, bind);
    }
    if id in t && id in view && AsSent(view[id]) == AsSent(t[id]) {
      assert view[id].id == t[id].id && view[id].owner == t[id].owner;
    }
  }

  /** The player is in the game, on its slot and in its world. */
  ghost predicate Present(g: Game, q: ClientId, world: byte, bind: byte) {
    HasClient(g, q) && PlayerOf(g, q).world == Some(world) && PlayerOf(g, q).bind == bind
  }

  /** The step does not end the player's stay: it does not leave, move on or lose its connection, and
      nobody takes over its slot. */
  ghost predicate Undisturbed(e: Event, q: ClientId, world: byte, bind: byte) {
    && (e.client == q ==> !e.Leave? && !e.Close? && !e.Disconnect? && (e.EnterWorld? ==> e.world == world))
    && (e.Restore? ==> e.bind != bind)
  }

  /** The one creation that nobody is told about: a vanger with a body of less than 25 bytes. */
  predicate Silent(g: Game, e: Event, q: ClientId, world: byte) {
    Accepts(g, e) && e.client != q && e.v.id.kind == VANGER && |e.v.body| < 25 && e.v.id.world as int == world as int
  }

  // ---- lists of notices ----

  lemma {:induction false} ReplayAppend(view: View, xs: seq<Notice>, ys: seq<Notice>, q: ClientId)
    ensures ReplayAll(view, xs + ys, q) == ReplayAll(ReplayAll(view, xs, q), ys, q)
    decreases xs
  {
    if xs == [] {
      assert xs + ys == ys;
    } else {
      assert (xs + ys)[0] == xs[0] && (xs + ys)[1..] == xs[1..] + ys;
      ReplayAppend(if q in xs[0].to then Replay(view, xs[0].message) else view, xs[1..], ys, q);
    }
  }

  lemma ReplayOne(view: View, n: Notice, q: ClientId)
    ensures ReplayAll(view, [n], q) == if q in n.to then Replay(view, n.message) else view
  {
    assert [n][1..] == [];
  }

  lemma ReplaySnoc(view: View, ns: seq<Notice>, n: Notice, q: ClientId)
    ensures ReplayAll(view, ns + [n], q)
            == if q in n.to then Replay(ReplayAll(view, ns, q), n.message) else ReplayAll(view, ns, q)
  {
    ReplayAppend(view, ns, [n], q);
    ReplayOne(ReplayAll(view, ns, q), n, q);
  }

  /** Deletions drop exactly their objects. */
  lemma {:induction false} ReplayDeletions(view: View, g: Game, bind: byte, to: set<ClientId>, order: seq<Id>,
                                           q: ClientId)
    requires forall i :: 0 <= i < |order| ==> order[i] in g.vanjects
    requires q in to
    ensures forall id :: id in ReplayAll(view, DeleteNotices(g, bind, to, order), q) <==> id in view && id !in order
    ensures forall id :: id in ReplayAll(view, DeleteNotices(g, bind, to, order), q) ==>
              ReplayAll(view, DeleteNotices(g, bind, to, order), q)[id] == view[id]
    decreases order
  {
    if order != [] {
      var ns := DeleteNotices(g, bind, to, order);
      assert ns[1..] == DeleteNotices(g, bind, to, order[1..]);
      ReplayDeletions(view - {order[0]}, g, bind, to, order[1..], q);
    }
  }

  /** Announcements store exactly their objects. */
  lemma {:induction false} ReplayAnnouncements(view: View, vs: seq<Vanject>, q: ClientId)
    requires forall i, j :: 0 <= i < j < |vs| ==> vs[i].id != vs[j].id
    ensures var view' := ReplayAll(view, AnnounceAll(vs, {q}), q);
            && (forall i :: 0 <= i < |vs| ==> vs[i].id in view' && view'[vs[i].id] == AsSent(vs[i]))
            && (forall id :: (forall i :: 0 <= i < |vs| ==> vs[i].id != id) ==>
                  (id in view' <==> id in view) && (id in view ==> view'[id] == view[id]))
    decreases vs
  {
    if vs != [] {
      var ns := AnnounceAll(vs, {q});
      assert ns[1..] == AnnounceAll(vs[1..], {q}) && ns[0] == Notice({q}, Announce(vs[0]));
      var view1 := view[vs[0].id := AsSent(vs[0])];
      assert Replay(view, ns[0].message) == view1;
      ReplayAnnouncements(view1, vs[1..], q);
      var view' := ReplayAll(view, ns, q);
      assert forall i :: 1 <= i < |vs| ==> vs[i] == vs[1..][i - 1];
      assert vs[0].id in view' && view'[vs[0].id] == AsSent(vs[0]);
      forall id | forall i :: 0 <= i < |vs| ==> vs[i].id != id
        ensures (id in view' <==> id in view) && (id in view ==> view'[id] == view[id])
      {
        assert vs[0].id != id;
        assert forall i :: 0 <= i < |vs[1..]| ==> vs[1..][i].id != id;
      }
    }
  }

  // ---- one object at a time ----

  lemma Stored(view: View, t: map<Id, Vanject>, v: Vanject, world: int, bind: byte)
    requires Agree(view, t, world, bind)
    ensures Agree(view[v.id := AsSent(v)], t[v.id := v], world, bind)
  {
    var view', t' := view[v.id := AsSent(v)], t[v.id := v];
    forall id ensures Shown(view', id, world, bind) == Shown(t', id, world, bind) {
      assert Shown(view, id, world, bind) == Shown(t, id, world, bind);
    }
  }

  lemma Dropped(view: View, t: map<Id, Vanject>, ids: set<Id>, world: int, bind: byte)
    requires Agree(view, t, world, bind)
    ensures Agree(view - ids, t - ids, world, bind)
  {
    forall id ensures Shown(view - ids, id, world, bind) == Shown(t - ids, id, world, bind) {
      assert Shown(view, id, world, bind) == Shown(t, id, world, bind);
    }
  }

  /** An object that is not shown under its id, before or after, may change behind the view's back. */
  lemma Unshown(view: View, t: map<Id, Vanject>, t': map<Id, Vanject>, ids: set<Id>, world: int, bind: byte)
    requires Agree(view, t, world, bind)
    requires forall id :: id !in ids ==> (id in t <==> id in t') && (id in t ==> t[id] == t'[id])
    requires forall id :: id in ids ==> Shown(t, id, world, bind).None? && Shown(t', id, world, bind).None?
    ensures Agree(view, t', world, bind)
  {
    forall id ensures Shown(view, id, world, bind) == Shown(t', id, world, bind) {
      assert Shown(view, id, world, bind) == Shown(t, id, world, bind);
    }
  }

  // ---- who receives what ----

  lemma OnlyPlayer(g: Game, q: ClientId, p: Player)
    requires GameOk(g) && HasClient(g, q) && p in g.players && p.client == q
    ensures p == PlayerOf(g, q)
  {
    DistinctKey(g.players, (o: Player) => o.client as int, p, PlayerOf(g, q));
  }

  lemma Receives(g: Game, q: ClientId, world: byte, bind: byte, client: ClientId, id: Id)
    requires GameOk(g) && Present(g, q, world, bind) && HasClient(g, client)
    ensures q in InWorld(g, id.world, client) <==> client != q && id.world as int == world as int
    ensures q in Others(g, client) <==> client != q
    ensures q in Audience(g, id, client) <==> client != q && (id.kind == GLOBAL || id.world as int == world as int)
    ensures PlayerOf(g, client).bind == bind <==> client == q
  {
    assert PlayerOf(g, q) in g.players;
    if q in InWorld(g, id.world, client) {
      var p :| p in g.players && p.world.Some? && p.world.value as int == id.world as int
               && p.client != client && p.client == q;
      OnlyPlayer(g, q, p);
    }
    if PlayerOf(g, client).bind == bind {
      DistinctKey(g.players, (o: Player) => o.bind as int, PlayerOf(g, client), PlayerOf(g, q));
    }
  }

  // ---- one lemma per event ----

  /** A player that stays present, and a view that agrees. */
  ghost predicate Follows(view: View, g: Game, q: ClientId, world: byte, bind: byte) {
    GameOk(g) && Present(g, q, world, bind) && Agree(view, g.vanjects, world as int, bind)
  }

  lemma AfterCreate(view: View, g: Game, e: Event, q: ClientId, world: byte, bind: byte)
    requires Follows(view, g, q, world, bind) && e.Create? && Possible(g, e)
    ensures Agree(Seen(view, g, e, q, bind), After(g, e).vanjects, world as int, bind) <==> !Silent(g, e, q, world)
  {
    if Accepts(g, e) {
      AfterNewObject(view, g, e, q, world, bind);
    } else if e.v.id in g.vanjects {
      AfterDuplicate(view, g, e, q, world, bind);
    }
  }

  lemma AfterDuplicate(view: View, g: Game, e: Event, q: ClientId, world: byte, bind: byte)
    requires Follows(view, g, q, world, bind) && e.Create? && Possible(g, e) && e.v.id in g.vanjects
    ensures Agree(Seen(view, g, e, q, bind), After(g, e).vanjects, world as int, bind)
  {
    var v := g.vanjects[e.v.id];
    var ns := Step(g, e).notices;
    var view0 := if e.client == q then Apply(view, e, bind) else view;
    var view1 := if e.client == q then view0[v.id := AsSent(v)] else view0;
    ReplayOne(view0, ns[0], q);
    assert ReplayAll(view0, [ns[0]], q) == view1;
    if |ns| == 2 {
      assert ns == [ns[0]] + [ns[1]];
      ReplaySnoc(view0, [ns[0]], ns[1], q);
    } else {
      assert ns == [ns[0]];
    }
    if e.client == q {
      Stored(view, g.vanjects, v, world as int, bind);
      assert g.vanjects[v.id := v] == g.vanjects;
      assert view1 == view[v.id := AsSent(v)];
    }
  }

  lemma AfterNewObject(view: View, g: Game, e: Event, q: ClientId, world: byte, bind: byte)
    requires Follows(view, g, q, world, bind) && e.Create? && Possible(g, e) && Accepts(g, e)
    ensures Agree(Seen(view, g, e, q, bind), After(g, e).vanjects, world as int, bind) <==> !Silent(g, e, q, world)
  {
    var v := e.v.(owner := PlayerOf(g, e.client).bind);
    var t, t', ns := g.vanjects, After(g, e).vanjects, Step(g, e).notices;
    assert t' == t[v.id := v];
    Receives(g, q, world, bind, e.client, v.id);
    Stored(view, t, v, world as int, bind);
    var view0 := if e.client == q then Apply(view, e, bind) else view;
    if ns != [] {
      ReplayOne(view0, ns[0], q);
      assert ns == [ns[0]] && ns[0].to == Audience(g, v.id, e.client);
    }
    if e.client != q && (ns == [] || q !in ns[0].to) {
      if v.id.world as int == world as int && v.id.kind != GLOBAL {
        assert Shown(view, v.id, world as int, bind) == Shown(t, v.id, world as int, bind) == None;
        assert Shown(t', v.id, world as int, bind) == Some(AsSent(v));
      } else {
        Unshown(view, t, t', {v.id}, world as int, bind);
      }
    }
  }

  lemma AfterUpdate(view: View, g: Game, e: Event, q: ClientId, world: byte, bind: byte)
    requires Follows(view, g, q, world, bind) && e.Update? && Possible(g, e)
    ensures Agree(Seen(view, g, e, q, bind), After(g, e).vanjects, world as int, bind)
  {
    if Step(g, e).outcome.Done? {
      var t, t', ns := g.vanjects, After(g, e).vanjects, Step(g, e).notices;
      var id := FromRaw(FromLe32(e.data));
      var v := t'[id];
      var c := UpdateMakes(g, e);
      assert c.v == v && t' == t[v.id := v] && v.id == id;
      Receives(g, q, world, bind, e.client, id);
      Stored(view, t, v, world as int, bind);
      OwnUpdateIsStored(g, e);
      var view0 := if e.client == q then Apply(view, e, bind) else view;
      assert ns == [ns[0]] && ns[0].to == Audience(g, id, e.client) && ns[0].message == Announce(v);
      ReplayOne(view0, ns[0], q);
      if e.client != q && q !in ns[0].to {
        Unshown(view, t, t', {id}, world as int, bind);
      }
    }
  }

  /** An accepted update stores what its sender knows. */
  lemma OwnUpdateIsStored(g: Game, e: Event)
    requires GameOk(g) && e.Update? && Possible(g, e) && Step(g, e).outcome.Done?
    ensures var id := FromRaw(FromLe32(e.data));
            && id in After(g, e).vanjects
            && OwnUpdate(e.data, PlayerOf(g, e.client).bind) == Some(AsSent(After(g, e).vanjects[id]))
  {
  }

  lemma AfterDelete(view: View, g: Game, e: Event, q: ClientId, world: byte, bind: byte)
    requires Follows(view, g, q, world, bind) && e.Delete? && Possible(g, e)
    ensures Agree(Seen(view, g, e, q, bind), After(g, e).vanjects, world as int, bind)
  {
    if Step(g, e).outcome.Done? {
      var t, t', ns := g.vanjects, After(g, e).vanjects, Step(g, e).notices;
      assert t' == t - {e.id};
      Receives(g, q, world, bind, e.client, e.id);
      Dropped(view, t, {e.id}, world as int, bind);
      var view0 := if e.client == q then Apply(view, e, bind) else view;
      assert ns == [ns[0]] && ns[0].to == Audience(g, e.id, e.client);
      ReplayOne(view0, ns[0], q);
      if e.client != q && q !in ns[0].to {
        Unshown(view, t, t', {e.id}, world as int, bind);
      }
    }
  }

  lemma AfterTransfer(view: View, g: Game, e: Event, q: ClientId, world: byte, bind: byte)
    requires Follows(view, g, q, world, bind) && e.TransferItem? && Possible(g, e)
    ensures Agree(Seen(view, g, e, q, bind), After(g, e).vanjects, world as int, bind)
  {
    if Step(g, e).outcome.Done? {
      var t, t', ns := g.vanjects, After(g, e).vanjects, Step(g, e).notices;
      var v, old' := e.t.v.(owner := PlayerOf(g, e.client).bind), e.t.oldId;
      assert t' == (t - {old'})[v.id := v] && old' != NO_ID;
      Receives(g, q, world, bind, e.client, v.id);
      Dropped(view, t, {old'}, world as int, bind);
      Stored(view - {old'}, t - {old'}, v, world as int, bind);
      var view0 := if e.client == q then Apply(view, e, bind) else view;
      assert ns == [Notice(InWorld(g, v.id.world, e.client), ItemState(old', AsSent(v)))];
      ReplayOne(view0, ns[0], q);
      if e.client != q && q !in ns[0].to {
        Unshown(view, t, t', {old', v.id}, world as int, bind);
      }
    }
  }

  /** What a departure submits: a deletion for each object that goes, then a notice about the player. */
  lemma ReplayDeparture(view: View, g: Game, client: ClientId, order: seq<Id>, q: ClientId, world: byte, bind: byte)
    requires Follows(view, g, q, world, bind) && HasClient(g, client) && client != q
    requires PlayerOf(g, client).world.Some? && Lists(order, Doomed(g, PlayerOf(g, client).bind))
    ensures Agree(ReplayAll(view, LeaveWorld(g, client, order).notices, q), Left(g, client).vanjects,
                  world as int, bind)
  {
    var p := PlayerOf(g, client);
    assert forall i :: 0 <= i < |order| ==> order[i] in order;
    Receives(g, q, world, bind, client, NO_ID);
    var deletions := DeleteNotices(g, p.bind, Others(g, client), order);
    ReplaySnoc(view, deletions, Notice(Others(g, client), PlayersWorld(p.bind, 0)), q);
    ReplayDeletions(view, g, p.bind, Others(g, client), order, q);
    assert ReplayAll(view, deletions, q) == view - Doomed(g, p.bind);
    Dropped(view, g.vanjects, Doomed(g, p.bind), world as int, bind);
  }

  lemma AfterLeave(view: View, g: Game, e: Event, q: ClientId, world: byte, bind: byte)
    requires Follows(view, g, q, world, bind) && e.Leave? && Possible(g, e) && e.client != q
    ensures Agree(Seen(view, g, e, q, bind), After(g, e).vanjects, world as int, bind)
  {
    if Departs(g, e) {
      ReplayDeparture(view, g, e.client, e.order, q, world, bind);
    }
  }

  // ---- entering a world ----

  predicate Inert(m: Message) {
    !m.ObjectUpdate? && !m.ItemState? && !m.ObjectDelete? && !m.ItemRemoved?
  }

  lemma {:induction false} ReplayQuiet(view: View, ns: seq<Notice>, q: ClientId)
    requires forall i :: 0 <= i < |ns| ==> q !in ns[i].to || Inert(ns[i].message)
    ensures ReplayAll(view, ns, q) == view
    decreases ns
  {
    if ns != [] {
      assert q !in ns[0].to || Inert(ns[0].message);
      assert forall i :: 0 <= i < |ns[1..]| ==> ns[1..][i] == ns[i + 1];
      ReplayQuiet(view, ns[1..], q);
    }
  }

  lemma AfterClose(view: View, g: Game, e: Event, q: ClientId, world: byte, bind: byte)
    requires Follows(view, g, q, world, bind) && e.Close? && Possible(g, e) && e.client != q
    ensures Agree(Seen(view, g, e, q, bind), After(g, e).vanjects, world as int, bind)
  {
    var left := LeaveWorld(g, e.client, e.order);
    if Departs(g, e) {
      ReplayDeparture(view, g, e.client, e.order, q, world, bind);
    }
    WithPlayerHas(g, e.client, PlayerOf(g, e.client).(world := None));
    ReplayAppend(view, left.notices, FinishNotices(left.game, e.client), q);
    ReplayQuiet(ReplayAll(view, left.notices, q), FinishNotices(left.game, e.client), q);
    CloseParts(g, e.client, e.order);
  }

  lemma {:induction false} AnnouncedTo(vs: seq<Vanject>, to: set<ClientId>)
    ensures forall i :: 0 <= i < |AnnounceAll(vs, to)| ==> AnnounceAll(vs, to)[i].to == to
  {
    if vs != [] {
      AnnouncedTo(vs[1..], to);
    }
  }

  lemma {:induction false} DeletionsTo(g: Game, bind: byte, to: set<ClientId>, order: seq<Id>)
    requires forall i :: 0 <= i < |order| ==> order[i] in g.vanjects
    ensures forall i :: 0 <= i < |DeleteNotices(g, bind, to, order)| ==> DeleteNotices(g, bind, to, order)[i].to == to
  {
    if order != [] {
      DeletionsTo(g, bind, to, order[1..]);
    }
  }

  lemma QuietGreeting(view: View, g: Game, client: ClientId, world: byte, created: byte, list: seq<byte>, q: ClientId)
    requires HasClient(g, client)
    ensures ReplayAll(view, Starting(g, PlayerOf(g, client)), q) == view
    ensures ReplayAll(view, Greeting(g, client, world, created, list), q) == view
  {
    ReplayQuiet(view, Starting(g, PlayerOf(g, client)), q);
    ReplayQuiet(view, Greeting(g, client, world, created, list), q);
  }

  /** Of the answers to SET_WORLD only the snapshot is about objects, and only the sender gets it. */
  lemma ReplayEntry(view: View, g: Game, client: ClientId, world: byte, created: byte, walk: seq<Id>, q: ClientId)
    requires HasClient(g, client) && Lists(walk, g.vanjects.Keys)
    requires forall i :: 0 <= i < |walk| ==> walk[i] in g.vanjects
    ensures ReplayAll(view, Enter(g, client, world, created, walk).notices, q)
            == if client == q
               then ReplayAll(view, AnnounceAll(Snapshot(g.vanjects, world, PlayerOf(g, client).bind, walk), {q}), q)
               else view
  {
    var p, g' := PlayerOf(g, client), WithPlayer(g, client, Placed(PlayerOf(g, client), world));
    var status, head := Starting(g, p), Greeting(g, client, world, created, TotalPlayersData(g'));
    var snapshot := AnnounceAll(Snapshot(g.vanjects, world, p.bind, walk), {client});
    ReplaySnoc(view, status + head + snapshot, Notice({client}, SnapshotEnd(world)), q);
    ReplayAppend(view, status + head, snapshot, q);
    ReplayAppend(view, status, head, q);
    QuietGreeting(view, g, client, world, created, TotalPlayersData(g'), q);
    AnnouncedTo(Snapshot(g.vanjects, world, p.bind, walk), {client});
    if client != q {
      ReplayQuiet(view, snapshot, q);
    }
  }

  ghost predicate ShowsNothingGone(view: View, t: map<Id, Vanject>, world: int, bind: byte) {
    forall id :: Shown(view, id, world, bind).Some? ==> Shown(t, id, world, bind).Some?
  }

  /** The snapshot, once replayed, shows exactly what the table shows. */
  lemma SnapshotShows(view: View, view': View, t: map<Id, Vanject>, s: seq<Vanject>, world: int, bind: byte, id: Id)
    requires ShowsNothingGone(view, t, world, bind)
    requires forall v :: v in s <==> v.id in t && t[v.id] == v && Visible(v, world, bind)
    requires forall i :: 0 <= i < |s| ==> s[i].id in view' && view'[s[i].id] == AsSent(s[i])
    requires (forall i :: 0 <= i < |s| ==> s[i].id != id) ==>
               (id in view' <==> id in view) && (id in view ==> view'[id] == view[id])
    requires TableOk(t)
    ensures Shown(view', id, world, bind) == Shown(t, id, world, bind)
  {
    if Shown(t, id, world, bind).Some? {
      assert t[id] in s;
      var i :| 0 <= i < |s| && s[i] == t[id];
      assert view'[s[i].id] == AsSent(s[i]);
    } else {
      forall i | 0 <= i < |s| ensures s[i].id != id {
        assert s[i] in s;
      }
      assert Shown(view, id, world, bind).None?;
    }
  }

  /** Whatever a client held before, as long as it shows nothing that is gone, a snapshot makes it
      agree. */
  lemma SnapshotAgrees(view: View, t: map<Id, Vanject>, world: int, bind: byte, walk: seq<Id>, q: ClientId)
    requires TableOk(t) && Lists(walk, t.Keys)
    requires forall i :: 0 <= i < |walk| ==> walk[i] in t
    requires ShowsNothingGone(view, t, world, bind)
    ensures Agree(ReplayAll(view, AnnounceAll(Snapshot(t, world, bind, walk), {q}), q), t, world, bind)
  {
    var s := Snapshot(t, world, bind, walk);
    SnapshotContents(t, world, bind, walk);
    SnapshotIsVisible(world, bind);
    ReplayAnnouncements(view, s, q);
    var view' := ReplayAll(view, AnnounceAll(s, {q}), q);
    forall id ensures Shown(view', id, world, bind) == Shown(t, id, world, bind) {
      SnapshotShows(view, view', t, s, world, bind, id);
    }
  }

  /** The notices of the departure that precedes an entry. */
  ghost function Leaving(g: Game, e: Event): seq<Notice>
    requires e.EnterWorld? && Possible(g, e)
  {
    if Departs(g, e) then LeaveWorld(g, e.client, e.order).notices else []
  }

  lemma ArrivalSeen(view: View, g: Game, client: ClientId, world: byte, ySize: u16, walk: seq<Id>, q: ClientId)
    requires HasClient(g, client) && Lists(walk, g.vanjects.Keys)
    requires forall i :: 0 <= i < |walk| ==> walk[i] in g.vanjects
    ensures var r := Arrive(g, client, world, ySize, walk);
            ReplayAll(view, r.notices, q)
            == if client == q && r.outcome.Done?
               then ReplayAll(view, AnnounceAll(Snapshot(g.vanjects, world, PlayerOf(g, q).bind, walk), {q}), q)
               else view
  {
    if WorldOf(g.worlds, world).None? {
      ReplayEntry(view, g.(worlds := g.worlds + [World(world, ySize)]), client, world, 1, walk, q);
    } else if WorldOf(g.worlds, world).value.ySize == ySize {
      ReplayEntry(view, g, client, world, 0, walk, q);
    }
  }

  /** What a player sees of a SET_WORLD: the departure, and its own snapshot. */
  lemma EntrySeen(view: View, g: Game, e: Event, q: ClientId)
    requires e.EnterWorld? && Possible(g, e)
    requires forall i :: 0 <= i < |e.walk| ==> e.walk[i] in AfterSwitch(g, e.client, e.world).vanjects
    ensures var g1, start := AfterSwitch(g, e.client, e.world), ReplayAll(view, Leaving(g, e), q);
            ReplayAll(view, Step(g, e).notices, q)
            == if e.client == q && Step(g, e).outcome.Done?
               then ReplayAll(start, AnnounceAll(Snapshot(g1.vanjects, e.world, PlayerOf(g1, q).bind, e.walk), {q}), q)
               else start
  {
    var g1 := AfterSwitch(g, e.client, e.world);
    var r := Arrive(g1, e.client, e.world, e.ySize, e.walk);
    ReplayAppend(view, Leaving(g, e), r.notices, q);
    ArrivalSeen(ReplayAll(view, Leaving(g, e), q), g1, e.client, e.world, e.ySize, e.walk, q);
  }

  lemma AfterEntryOfOther(view: View, g: Game, e: Event, q: ClientId, world: byte, bind: byte)
    requires Follows(view, g, q, world, bind) && e.EnterWorld? && Possible(g, e) && e.client != q
    ensures Agree(Seen(view, g, e, q, bind), After(g, e).vanjects, world as int, bind)
  {
    if Departs(g, e) {
      ReplayDeparture(view, g, e.client, e.order, q, world, bind);
    }
    WalkInside(AfterSwitch(g, e.client, e.world).vanjects, e.walk);
    EntrySeen(view, g, e, q);
    SetWorldParts(g, e.client, e.world, e.ySize, e.order, e.walk);
  }

  /** The notices of a player's own departure go to the others. */
  lemma OwnDepartureQuiet(view: View, g: Game, q: ClientId, order: seq<Id>)
    requires GameOk(g) && HasClient(g, q) && PlayerOf(g, q).world.Some?
    requires Lists(order, Doomed(g, PlayerOf(g, q).bind))
    ensures ReplayAll(view, LeaveWorld(g, q, order).notices, q) == view
  {
    var p := PlayerOf(g, q);
    assert forall i :: 0 <= i < |order| ==> order[i] in order;
    DeletionsTo(g, p.bind, Others(g, q), order);
    ReplayQuiet(view, LeaveWorld(g, q, order).notices, q);
  }

  /** Entering a world makes the view agree. */
  lemma AfterOwnEntry(view: View, g: Game, e: Event, q: ClientId, bind: byte)
    requires GameOk(g) && e.EnterWorld? && Possible(g, e) && e.client == q && PlayerOf(g, q).bind == bind
    requires Step(g, e).outcome.Done?
    requires ShowsNothingGone(view, AfterSwitch(g, q, e.world).vanjects, e.world as int, bind)
    ensures Agree(Seen(view, g, e, q, bind), After(g, e).vanjects, e.world as int, bind)
  {
    var g1 := AfterSwitch(g, q, e.world);
    if Departs(g, e) {
      OwnDepartureQuiet(view, g, q, e.order);
    }
    WithPlayerHas(g, q, PlayerOf(g, q).(world := None));
    WalkInside(g1.vanjects, e.walk);
    EntrySeen(view, g, e, q);
    SetWorldParts(g, q, e.world, e.ySize, e.order, e.walk);
    assert TableOk(g1.vanjects) && PlayerOf(g1, q).bind == bind;
    SnapshotAgrees(view, g1.vanjects, e.world as int, bind, e.walk, q);
  }

  // ---- staying present ----

  lemma PresentStep(g: Game, e: Event, q: ClientId, world: byte, bind: byte)
    requires GameOk(g) && Present(g, q, world, bind) && Possible(g, e) && Undisturbed(e, q, world, bind)
    ensures Present(After(g, e), q, world, bind)
  {
    if e.client == q {
      OwnPlayerKept(g, e);
    } else {
      OtherPlayerKept(g, e, q);
    }
  }

  // ---- steps and runs ----

  lemma AgreeingShowsNothingGone(view: View, t: map<Id, Vanject>, world: int, bind: byte)
    requires Agree(view, t, world, bind)
    ensures ShowsNothingGone(view, t, world, bind)
  {
    forall id | Shown(view, id, world, bind).Some? ensures Shown(t, id, world, bind).Some? {
      assert Shown(view, id, world, bind) == Shown(t, id, world, bind);
    }
  }

  lemma AfterOwnReentry(view: View, g: Game, e: Event, q: ClientId, world: byte, bind: byte)
    requires Follows(view, g, q, world, bind) && e.EnterWorld? && Possible(g, e)
    requires e.client == q && e.world == world
    ensures Agree(Seen(view, g, e, q, bind), After(g, e).vanjects, world as int, bind)
  {
    if Step(g, e).outcome.Done? {
      AgreeingShowsNothingGone(view, g.vanjects, world as int, bind);
      AfterOwnEntry(view, g, e, q, bind);
    } else {
      SetWorldParts(g, q, e.world, e.ySize, e.order, e.walk);
    }
  }

  lemma AfterJoin(view: View, g: Game, e: Event, q: ClientId, world: byte, bind: byte)
    requires Follows(view, g, q, world, bind) && (e.AttachTo? || e.Restore?) && Possible(g, e)
    ensures Agree(Seen(view, g, e, q, bind), After(g, e).vanjects, world as int, bind)
  {
    if e.AttachTo? && Step(g, e).outcome.Done? {
      var ns := Step(g, e).notices;
      AnnouncedGlobalsTo(Globals(g.vanjects, e.walk), {e.client});
      forall i | 0 <= i < |ns| ensures q !in ns[i].to {
        assert ns[i].to == {e.client};
      }
      ReplayQuiet(view, ns, q);
    }
  }

  lemma {:induction false} AnnouncedGlobalsTo(vs: seq<Vanject>, to: set<ClientId>)
    ensures forall i :: 0 <= i < |AnnounceGlobals(vs, to)| ==> AnnounceGlobals(vs, to)[i].to == to
  {
    if vs != [] {
      AnnouncedGlobalsTo(vs[1..], to);
    }
  }

  /** Every step keeps the agreement of a player that stays, except a silent creation. */
  lemma AgreeStep(view: View, g: Game, e: Event, q: ClientId, world: byte, bind: byte)
    requires Follows(view, g, q, world, bind) && Possible(g, e) && Undisturbed(e, q, world, bind)
    ensures Agree(Seen(view, g, e, q, bind), After(g, e).vanjects, world as int, bind) <==> !Silent(g, e, q, world)
  {
    match e
    case Create(_, _) => AfterCreate(view, g, e, q, world, bind);
    case Update(_, _) => AfterUpdate(view, g, e, q, world, bind);
    case Delete(_, _, _) => AfterDelete(view, g, e, q, world, bind);
    case TransferItem(_, _) => AfterTransfer(view, g, e, q, world, bind);
    case Leave(_, _) => AfterLeave(view, g, e, q, world, bind);
    case EnterWorld(c, _, _, _, _) =>
      if c == q {
        AfterOwnReentry(view, g, e, q, world, bind);
      } else {
        AfterEntryOfOther(view, g, e, q, world, bind);
      }
    case Close(_, _) => AfterClose(view, g, e, q, world, bind);
    case AttachTo(_, _, _, _) => AfterJoin(view, g, e, q, world, bind);
    case Restore(_, _) => AfterJoin(view, g, e, q, world, bind);
    case Disconnect(_, _) =>
    case Profile(_, _, _, _, _) =>
    case Configure(_) =>
  }

  ghost predicate AllUndisturbed(es: seq<Event>, q: ClientId, world: byte, bind: byte) {
    forall i :: 0 <= i < |es| ==> Undisturbed(es[i], q, world, bind)
  }

  /** The view agrees with the table in every state of the run. */
  ghost predicate AgreesThroughout(view: View, g: Game, es: seq<Event>, q: ClientId, world: byte, bind: byte)
    requires IsRun(g, es)
    decreases es
  {
    && Agree(view, g.vanjects, world as int, bind)
    && (es != [] ==> AgreesThroughout(Seen(view, g, es[0], q, bind), After(g, es[0]), es[1..], q, world, bind))
  }

  ghost predicate NeverSilent(g: Game, es: seq<Event>, q: ClientId, world: byte)
    requires IsRun(g, es)
    decreases es
  {
    es != [] ==> !Silent(g, es[0], q, world) && NeverSilent(After(g, es[0]), es[1..], q, world)
  }

  lemma {:induction false} AgreeRun(view: View, g: Game, es: seq<Event>, q: ClientId, world: byte, bind: byte)
    requires Follows(view, g, q, world, bind) && IsRun(g, es) && AllUndisturbed(es, q, world, bind)
    ensures AgreesThroughout(view, g, es, q, world, bind) <==> NeverSilent(g, es, q, world)
    decreases es
  {
    if es != [] {
      assert Undisturbed(es[0], q, world, bind);
      AgreeStep(view, g, es[0], q, world, bind);
      var view1, g1 := Seen(view, g, es[0], q, bind), After(g, es[0]);
      GameOkStep(g, es[0]);
      PresentStep(g, es[0], q, world, bind);
      assert forall i :: 0 <= i < |es[1..]| ==> es[1..][i] == es[i + 1];
      if Agree(view1, g1.vanjects, world as int, bind) {
        AgreeRun(view1, g1, es[1..], q, world, bind);
      }
    }
  }

  /** A player enters a world with an empty view: from then on, for as long as it stays, its view is
      the server's table of that world, exactly when no vanger is created in it with a body of less
      than 25 bytes by another player. */
  lemma ReplicaAgreement(g: Game, entry: Event, es: seq<Event>, q: ClientId, bind: byte)
    requires GameOk(g) && entry.EnterWorld? && entry.client == q && IsRun(g, [entry] + es)
    requires PlayerOf(g, q).bind == bind && Step(g, entry).outcome.Done?
    requires AllUndisturbed(es, q, entry.world, bind)
    ensures IsRun(After(g, entry), es)
    ensures AgreesThroughout(Seen(map[], g, entry, q, bind), After(g, entry), es, q, entry.world, bind)
            <==> NeverSilent(After(g, entry), es, q, entry.world)
  {
    assert ([entry] + es)[0] == entry && ([entry] + es)[1..] == es;
    var g1 := After(g, entry);
    AfterOwnEntry(map[], g, entry, q, bind);
    GameOkStep(g, entry);
    OwnPlayerKept(g, entry);
    AgreeRun(Seen(map[], g, entry, q, bind), g1, es, q, entry.world, bind);
  }
}
