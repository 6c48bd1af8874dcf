/** How one step changes the object table, and what follows for the owners of objects and for
    what the players carry. */
module Tables {
  import opened Wrappers
  import opened Bytes
  import opened Vanjects
  import opened Messages
  import opened Games
  import opened Handlers
  import opened Steps

  type Table = map<Id, Vanject>

  /** The five things a step can do to the table. */
  datatype Change = Kept | Added(v: Vanject) | Rewritten(v: Vanject) | Removed(ids: set<Id>) | Moved(id: Id, v: Vanject)

  function Changed(t: Table, c: Change): Table {
    match c
    case Kept => t
    case Added(v) => t[v.id := v]
    case Rewritten(v) => t[v.id := v]
    case Removed(ids) => t - ids
    case Moved(id, v) => (t - {id})[v.id := v]
  }

  predicate SameItem(a: Id, b: Id) {
    IsItem(a) && IsItem(b) && a.station == b.station && a.world == b.world && a.counter == b.counter
  }

  /** What the guards of the handlers promise about a change. */
  ghost predicate Guarded(g: Game, e: Event, c: Change)
    requires Possible(g, e)
  {
    var t := g.vanjects;
    match c
    case Kept => true
    case Added(v) =>
      && e.Create? && v == e.v.(owner := PlayerOf(g, e.client).bind) && v.id !in t
      && (IsItem(v.id) ==> PairedIn(v, t).None?)
    case Rewritten(v) =>
      && e.Update? && v.id in t && v.owner == PlayerOf(g, e.client).bind
      && (v.id.kind != GLOBAL && !v.id.isStatic ==> t[v.id].owner == v.owner)
      && (v.id.kind != GLOBAL ==> PlayerOf(g, e.client).world == Some(v.id.world as byte))
    case Removed(ids) =>
      || (e.Delete? && ids == {e.id} && e.id in t && t[e.id].owner == PlayerOf(g, e.client).bind)
      || (Departs(g, e) && ids == Doomed(g, PlayerOf(g, e.client).bind))
    case Moved(id, v) =>
      && e.TransferItem? && id in t && v.id !in t && SameItem(id, v.id) && id.kind != v.id.kind
      && v.owner == PlayerOf(g, e.client).bind && PlayerOf(g, e.client).world == Some(v.id.world as byte)
      && (id.kind == DEVICE ==> t[id].owner == v.owner)
  }

  ghost predicate Makes(g: Game, e: Event, c: Change)
    requires Possible(g, e)
  {
    Guarded(g, e, c) && After(g, e).vanjects == Changed(g.vanjects, c)
  }

  lemma CreateMakes(g: Game, e: Event) returns (c: Change)
    requires GameOk(g) && e.Create? && Possible(g, e)
    ensures Makes(g, e, c)
    ensures c.Added? <==> Accepts(g, e)
    ensures c.Kept? || c.Added?
  {
    c := if Accepts(g, e) then Added(e.v.(owner := PlayerOf(g, e.client).bind)) else Kept;
  }

  /** The guard of CREATE_OBJECT: the object is new and its counterpart is not stored. */
  predicate Accepts(g: Game, e: Event) {
    e.Create? && e.v.id !in g.vanjects && !(IsItem(e.v.id) && PairedIn(e.v, g.vanjects).Some?)
  }

  lemma UpdateMakes(g: Game, e: Event) returns (c: Change)
    requires GameOk(g) && e.Update? && Possible(g, e)
    ensures Makes(g, e, c)
    ensures c.Rewritten? <==> Step(g, e).outcome.Done?
    ensures c.Kept? || c.Rewritten?
    ensures c.Rewritten? ==> c.v.id == FromRaw(FromLe32(e.data))
  {
    if Step(g, e).outcome.Done? {
      c := Rewritten(After(g, e).vanjects[FromRaw(FromLe32(e.data))]);
    } else {
      c := Kept;
    }
  }

  lemma DeleteMakes(g: Game, e: Event) returns (c: Change)
    requires GameOk(g) && e.Delete? && Possible(g, e)
    ensures Makes(g, e, c)
    ensures c.Kept? || c.Removed?
  {
    c := if Step(g, e).outcome.Done? && e.id in g.vanjects then Removed({e.id}) else Kept;
  }

  lemma TransferMakes(g: Game, e: Event) returns (c: Change)
    requires GameOk(g) && e.TransferItem? && Possible(g, e)
    ensures Makes(g, e, c)
    ensures c.Moved? <==> Step(g, e).outcome.Done?
    ensures c.Kept? || c.Moved?
    ensures c.Moved? ==> c.id == e.t.oldId && c.v.id == e.t.v.id
  {
    c := if Step(g, e).outcome.Done? then Moved(e.t.oldId, e.t.v.(owner := PlayerOf(g, e.client).bind)) else Kept;
  }

  lemma ClosingMakes(g: Game, e: Event)
    requires GameOk(g) && e.Close? && Possible(g, e)
    ensures Makes(g, e, if Departs(g, e) then Removed(Doomed(g, PlayerOf(g, e.client).bind)) else Kept)
  {
    CloseParts(g, e.client, e.order);
  }

  lemma EntryMakes(g: Game, e: Event)
    requires GameOk(g) && e.EnterWorld? && Possible(g, e)
    ensures Makes(g, e, if Departs(g, e) then Removed(Doomed(g, PlayerOf(g, e.client).bind)) else Kept)
  {
    SetWorldParts(g, e.client, e.world, e.ySize, e.order, e.walk);
  }

  lemma DepartureMakes(g: Game, e: Event) returns (c: Change)
    requires GameOk(g) && (e.Leave? || e.EnterWorld? || e.Close?) && Possible(g, e)
    ensures Makes(g, e, c)
    ensures c == if Departs(g, e) then Removed(Doomed(g, PlayerOf(g, e.client).bind)) else Kept
  {
    c := if Departs(g, e) then Removed(Doomed(g, PlayerOf(g, e.client).bind)) else Kept;
    if e.Close? {
      ClosingMakes(g, e);
    } else if e.EnterWorld? {
      EntryMakes(g, e);
    }
  }

  lemma KeepsTable(g: Game, e: Event)
    requires Possible(g, e)
    requires e.AttachTo? || e.Restore? || e.Disconnect? || e.Profile? || e.Configure?
    ensures After(g, e).vanjects == g.vanjects
  {
  }

  /** A step that is about no object keeps the table, or makes a departure. */
  lemma MoveMakes(g: Game, e: Event) returns (c: Change)
    requires GameOk(g) && Possible(g, e) && !e.Create? && !e.Update? && !e.Delete? && !e.TransferItem?
    ensures Makes(g, e, c) && (c.Kept? || c.Removed?)
  {
    if e.Leave? || e.EnterWorld? || e.Close? {
      c := DepartureMakes(g, e);
    } else {
      c := Kept;
      KeepsTable(g, e);
    }
  }

  /** Every step makes one guarded change. */
  lemma StepMakes(g: Game, e: Event) returns (c: Change)
    requires GameOk(g) && Possible(g, e)
    ensures Makes(g, e, c)
    ensures c.Added? <==> Accepts(g, e)
    ensures c.Moved? <==> e.TransferItem? && Step(g, e).outcome.Done?
    ensures c.Rewritten? <==> e.Update? && Step(g, e).outcome.Done?
  {
    match e
    case Create(_, _) => c := CreateMakes(g, e);
    case Update(_, _) => c := UpdateMakes(g, e);
    case Delete(_, _, _) => c := DeleteMakes(g, e);
    case TransferItem(_, _) => c := TransferMakes(g, e);
    case _ => c := MoveMakes(g, e);
  }

  // ---- exactly what is granted ----

  /** An update is granted to whoever is in the object's world and, unless it is static, owns it; global
      objects may be updated by anybody. The sizes are those of the fixed fields. */
  lemma UpdateGranted(g: Game, e: Event)
    requires GameOk(g) && e.Update? && Possible(g, e)
    ensures var id, p := FromRaw(FromLe32(e.data)), PlayerOf(g, e.client);
            Step(g, e).outcome.Done? <==>
              && id in g.vanjects && |e.data| >= (if id.kind == VANGER then 14 else 12)
              && (id.kind != GLOBAL ==>
                    p.world == Some(id.world as byte) && (id.isStatic || g.vanjects[id].owner == p.bind))
  {
  }

  /** A deletion of a stored object is granted to its owner, except an item's with the marker of a
      transfer; a deletion of anything else is passed on. */
  lemma DeleteGranted(g: Game, e: Event)
    requires GameOk(g) && e.Delete? && Possible(g, e)
    ensures Step(g, e).outcome.Done? <==>
              (e.id in g.vanjects ==>
                && g.vanjects[e.id].owner == PlayerOf(g, e.client).bind
                && !(IsItem(e.id) && |e.rest| > 4 && e.rest[4] == 1))
    ensures After(g, e) == if Step(g, e).outcome.Done? then g.(vanjects := g.vanjects - {e.id}) else g
  {
    if e.id !in g.vanjects {
      assert g.vanjects - {e.id} == g.vanjects;
    }
  }

  /** A transfer is granted if one form is stored, the other is not, the sender is in the item's world
      and, to drop it, owns it. Picking up asks for no owner. */
  lemma TransferGranted(g: Game, e: Event)
    requires GameOk(g) && e.TransferItem? && Possible(g, e)
    ensures var t, p := e.t, PlayerOf(g, e.client);
            Step(g, e).outcome.Done? <==>
              && t.oldId in g.vanjects && t.v.id !in g.vanjects && p.world == Some(t.oldId.world as byte)
              && (t.oldId.kind == DEVICE ==> g.vanjects[t.oldId].owner == p.bind)
    ensures Step(g, e).outcome.Failed? ==> After(g, e) == g
  {
  }

  // ---- owners ----

  predicate Protected(id: Id) {
    id.kind != GLOBAL && !id.isStatic
  }

  /** The owner of a stored object changes exactly when another player updates an object that is
      global or static. */
  lemma OwnerChanges(g: Game, e: Event, id: Id)
    requires GameOk(g) && Possible(g, e) && id in g.vanjects && id in After(g, e).vanjects
    ensures After(g, e).vanjects[id].owner != g.vanjects[id].owner
            <==> (e.Update? && FromRaw(FromLe32(e.data)) == id && Step(g, e).outcome.Done? && !Protected(id)
                  && PlayerOf(g, e.client).bind != g.vanjects[id].owner)
  {
    var c := StepMakes(g, e);
    if e.Update? {
      c := UpdateMakes(g, e);
    }
  }

  ghost predicate Stays(g: Game, es: seq<Event>, id: Id)
    requires IsRun(g, es)
    decreases es
  {
    id in g.vanjects && (es != [] ==> Stays(After(g, es[0]), es[1..], id))
  }

  /** A non-global non-static object keeps its owner for as long as it stays. */
  lemma {:induction false} OwnerKept(g: Game, es: seq<Event>, id: Id)
    requires GameOk(g) && IsRun(g, es) && Stays(g, es, id) && Protected(id)
    ensures id in Run(g, es).vanjects && Run(g, es).vanjects[id].owner == g.vanjects[id].owner
    decreases es
  {
    if es != [] {
      var g1 := After(g, es[0]);
      assert id in g1.vanjects;
      GameOkStep(g, es[0]);
      OwnerChanges(g, es[0], id);
      OwnerKept(g1, es[1..], id);
    }
  }

  /** Why a carried object may leave the table. */
  ghost predicate TakesAway(g: Game, e: Event, id: Id)
    requires Possible(g, e) && id in g.vanjects
  {
    && HasClient(g, e.client) && PlayerOf(g, e.client).bind == g.vanjects[id].owner
    && (|| Departs(g, e)
        || (e.Delete? && e.id == id && Step(g, e).outcome.Done?)
        || (e.TransferItem? && e.t.oldId == id && Step(g, e).outcome.Done?))
  }

  lemma InventoryDeparts(g: Game, e: Event, id: Id)
    requires GameOk(g) && (e.Leave? || e.EnterWorld? || e.Close?) && Possible(g, e)
    requires id in g.vanjects && IsInventory(id)
    ensures id !in After(g, e).vanjects <==> TakesAway(g, e, id)
  {
    var c := DepartureMakes(g, e);
  }

  lemma InventoryDropped(g: Game, e: Event, id: Id)
    requires GameOk(g) && (e.Delete? || e.TransferItem?) && Possible(g, e)
    requires id in g.vanjects && IsInventory(id)
    ensures id !in After(g, e).vanjects <==> TakesAway(g, e, id)
  {
    if e.Delete? {
      DeleteGranted(g, e);
    } else {
      var c := TransferMakes(g, e);
    }
  }

  /** A carried object leaves the table exactly when its owner deletes it, drops it, or gives up
      its world. */
  lemma InventoryLeaves(g: Game, e: Event, id: Id)
    requires GameOk(g) && Possible(g, e) && id in g.vanjects && IsInventory(id)
    ensures id !in After(g, e).vanjects <==> TakesAway(g, e, id)
  {
    if e.Leave? || e.EnterWorld? || e.Close? {
      InventoryDeparts(g, e, id);
    } else if e.Delete? || e.TransferItem? {
      InventoryDropped(g, e, id);
    } else {
      var c := StepMakes(g, e);
    }
  }
}
