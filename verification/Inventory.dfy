/** Carried objects always belong to a live player who is in a world. */
module Inventory {
  import opened Wrappers
  import opened Bytes
  import opened Vanjects
  import opened Games
  import opened Handlers
  import opened Steps
  import opened Tables

  /** Some live player holds this slot and is in a world. */
  ghost predicate Seated(players: seq<Player>, bind: byte) {
    exists i :: 0 <= i < |players| && players[i].bind == bind && players[i].world.Some?
  }

  ghost predicate NoOrphans(g: Game) {
    forall id :: id in g.vanjects && IsInventory(id) ==> Seated(g.players, g.vanjects[id].owner)
  }

  /** An accepted creation of a carried object by a player outside of all worlds. */
  predicate MakesOrphan(g: Game, e: Event) {
    && Accepts(g, e) && IsInventory(e.v.id)
    && HasClient(g, e.client) && PlayerOf(g, e.client).world.None?
  }

  lemma SeatOf(g: Game, q: ClientId)
    requires HasClient(g, q) && PlayerOf(g, q).world.Some?
    ensures Seated(g.players, PlayerOf(g, q).bind)
  {
    var k := IndexOf(g.players, q).value;
    assert g.players[k].bind == PlayerOf(g, q).bind && g.players[k].world.Some?;
  }

  /** A restored connection inherits the seat. */
  lemma SeatSurvivesRestore(g: Game, e: Event, bind: byte)
    requires GameOk(g) && e.Restore? && Possible(g, e) && Seated(g.players, bind)
    ensures Seated(After(g, e).players, bind)
  {
    var i :| 0 <= i < |g.players| && g.players[i].bind == bind && g.players[i].world.Some?;
    var players := After(g, e).players;
    assert players[i].bind == bind && players[i].world.Some?;
  }

  /** A seat is lost only by giving up the world. */
  lemma SeatSurvives(g: Game, e: Event, bind: byte)
    requires GameOk(g) && Possible(g, e) && Seated(g.players, bind)
    requires Departs(g, e) ==> bind != PlayerOf(g, e.client).bind
    ensures Seated(After(g, e).players, bind)
  {
    var i :| 0 <= i < |g.players| && g.players[i].bind == bind && g.players[i].world.Some?;
    var q := g.players[i].client;
    PlayerAt(g, q, i);
    if e.Restore? {
      SeatSurvivesRestore(g, e, bind);
    } else if e.client != q {
      OtherPlayerKept(g, e, q);
      SeatOf(After(g, e), q);
    } else {
      OwnPlayerKept(g, e);
      SeatOf(After(g, e), q);
    }
  }

  /** The sender is the only holder of its slot. */
  lemma SenderSeat(g: Game, client: ClientId)
    requires GameOk(g) && HasClient(g, client)
    ensures Seated(g.players, PlayerOf(g, client).bind) <==> PlayerOf(g, client).world.Some?
  {
    var k := IndexOf(g.players, client).value;
    assert PlayerOf(g, client) == g.players[k];
    if Seated(g.players, PlayerOf(g, client).bind) {
      var i :| 0 <= i < |g.players| && g.players[i].bind == PlayerOf(g, client).bind && g.players[i].world.Some?;
      assert i == k;
    }
  }

  /** After a step, a carried object is owned as it was before, or by the sender. */
  lemma OwnedStep(g: Game, e: Event, id: Id)
    requires GameOk(g) && NoOrphans(g) && Possible(g, e) && !MakesOrphan(g, e)
    requires id in After(g, e).vanjects && IsInventory(id)
    ensures Seated(After(g, e).players, After(g, e).vanjects[id].owner)
  {
    var c := StepMakes(g, e);
    var owner := After(g, e).vanjects[id].owner;
    if (c.Added? || c.Rewritten? || c.Moved?) && c.v.id == id {
      SenderSeat(g, e.client);
    } else {
      assert owner == g.vanjects[id].owner;
    }
    assert Seated(g.players, owner);
    if Departs(g, e) && owner == PlayerOf(g, e.client).bind {
      InventoryLeaves(g, e, id);
    }
    SeatSurvives(g, e, owner);
  }

  lemma OrphanMade(g: Game, e: Event)
    requires GameOk(g) && Possible(g, e) && MakesOrphan(g, e)
    ensures !NoOrphans(After(g, e))
  {
    var g', p := After(g, e), PlayerOf(g, e.client);
    SenderSeat(g, e.client);
    var c := StepMakes(g, e);
    assert g'.players == g.players;
    assert e.v.id in g'.vanjects && g'.vanjects[e.v.id].owner == p.bind;
  }

  /** A step orphans something exactly when it is such a creation. */
  lemma OrphanStep(g: Game, e: Event)
    requires GameOk(g) && NoOrphans(g) && Possible(g, e)
    ensures NoOrphans(After(g, e)) <==> !MakesOrphan(g, e)
  {
    if MakesOrphan(g, e) {
      OrphanMade(g, e);
    } else {
      forall id | id in After(g, e).vanjects && IsInventory(id)
        ensures Seated(After(g, e).players, After(g, e).vanjects[id].owner)
      {
        OwnedStep(g, e, id);
      }
    }
  }

  ghost predicate NeverOrphans(g: Game, es: seq<Event>)
    requires IsRun(g, es)
    decreases es
  {
    NoOrphans(g) && (es != [] ==> NeverOrphans(After(g, es[0]), es[1..]))
  }

  /** Every carried object is created by a player who is in a world. */
  ghost predicate CarriersInWorlds(g: Game, es: seq<Event>)
    requires IsRun(g, es)
    decreases es
  {
    es != [] ==> !MakesOrphan(g, es[0]) && CarriersInWorlds(After(g, es[0]), es[1..])
  }

  /** No state of a run holds an orphaned carried object exactly when carried objects are created
      only by players in worlds. */
  lemma {:induction false} NoOrphanInventory(g: Game, es: seq<Event>)
    requires GameOk(g) && NoOrphans(g) && IsRun(g, es)
    ensures NeverOrphans(g, es) <==> CarriersInWorlds(g, es)
    decreases es
  {
    if es != [] {
      OrphanStep(g, es[0]);
      GameOkStep(g, es[0]);
      if NoOrphans(After(g, es[0])) {
        NoOrphanInventory(After(g, es[0]), es[1..]);
      }
    }
  }

  /** A player that joins, on whatever slot, starts with nothing to carry. */
  lemma RecycledSlotIsEmpty(g: Game, e: Event, id: Id)
    requires GameOk(g) && NoOrphans(g) && e.AttachTo? && Possible(g, e) && Step(g, e).outcome.Done?
    requires id in After(g, e).vanjects && IsInventory(id)
    ensures var slot := After(g, e).players[|g.players|].bind;
            After(g, e).vanjects[id].owner != slot
  {
    var i :| 0 <= i < |g.players| && g.players[i].bind == g.vanjects[id].owner && g.players[i].world.Some?;
  }
}
