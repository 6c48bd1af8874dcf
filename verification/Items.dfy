/** Items have two forms, the DEVICE that is carried and the STUFF that lies in a world. No item is
    stored in two forms, and a transfer neither makes nor loses an item. */
module Items {
  import opened Wrappers
  import opened Bytes
  import opened Vanjects
  import opened Messages
  import opened Games
  import opened Handlers
  import opened Steps
  import opened Tables

  ghost predicate NoTwins(t: Table) {
    forall a, b :: a in t && b in t && SameItem(a, b) ==> a == b
  }

  ghost predicate HasTwin(t: Table, id: Id) {
    exists a :: a in t && SameItem(a, id)
  }

  /** An accepted creation of an item that is stored already, in a form its link does not name. */
  ghost predicate Duplicates(g: Game, e: Event) {
    Accepts(g, e) && HasTwin(g.vanjects, e.v.id)
  }

  lemma TwinChange(t: Table, c: Change)
    requires NoTwins(t)
    requires c.Added? ==> c.v.id !in t
    requires c.Rewritten? ==> c.v.id in t
    requires c.Moved? ==> c.id in t && SameItem(c.id, c.v.id)
    ensures NoTwins(Changed(t, c)) <==> !(c.Added? && HasTwin(t, c.v.id))
  {
    match c
    case Kept =>
    case Added(v) =>
      if HasTwin(t, v.id) {
        var a :| a in t && SameItem(a, v.id);
        assert a in Changed(t, c) && v.id in Changed(t, c);
      } else {
        assert forall b :: b in t ==> !SameItem(b, v.id);
      }
    case Rewritten(_) =>
    case Removed(_) =>
    case Moved(id, v) =>
      assert forall b :: b in t && SameItem(b, v.id) ==> SameItem(b, id);
  }

  /** A step duplicates an item exactly when it is such a creation. */
  lemma TwinStep(g: Game, e: Event)
    requires GameOk(g) && NoTwins(g.vanjects) && Possible(g, e)
    ensures NoTwins(After(g, e).vanjects) <==> !Duplicates(g, e)
  {
    var c := StepMakes(g, e);
    TwinChange(g.vanjects, c);
  }

  ghost predicate NeverTwins(g: Game, es: seq<Event>)
    requires IsRun(g, es)
    decreases es
  {
    NoTwins(g.vanjects) && (es != [] ==> NeverTwins(After(g, es[0]), es[1..]))
  }

  ghost predicate NoDuplicate(g: Game, es: seq<Event>)
    requires IsRun(g, es)
    decreases es
  {
    es != [] ==> !Duplicates(g, es[0]) && NoDuplicate(After(g, es[0]), es[1..])
  }

  /** No state of a run holds an item twice exactly when no creation duplicates one. */
  lemma {:induction false} NoItemTwice(g: Game, es: seq<Event>)
    requires GameOk(g) && NoTwins(g.vanjects) && IsRun(g, es)
    ensures NeverTwins(g, es) <==> NoDuplicate(g, es)
    decreases es
  {
    if es != [] {
      TwinStep(g, es[0]);
      GameOkStep(g, es[0]);
      if NoTwins(After(g, es[0]).vanjects) {
        NoItemTwice(After(g, es[0]), es[1..]);
      }
    }
  }

  // ---- what well-meaning clients do ----

  function Counterpart(id: Id): Id {
    id.(kind := if id.kind == DEVICE then STUFF else DEVICE)
  }

  ghost predicate PlainItems(t: Table) {
    forall id :: id in t && IsItem(id) ==> !id.isStatic
  }

  /** A client that never sets the static bit of an item, and names the counterpart of an item it
      creates in the item's body. */
  predicate Honest(e: Event) {
    match e
    case Create(_, v) => IsItem(v.id) ==> !v.id.isStatic && LinkedId(v) == Some(Counterpart(v.id))
    case TransferItem(_, t) => !t.v.id.isStatic
    case _ => true
  }

  lemma HonestStep(g: Game, e: Event)
    requires GameOk(g) && NoTwins(g.vanjects) && PlainItems(g.vanjects) && Possible(g, e) && Honest(e)
    ensures NoTwins(After(g, e).vanjects) && PlainItems(After(g, e).vanjects)
  {
    var c := StepMakes(g, e);
    forall a | e.Create? && a in g.vanjects && SameItem(a, e.v.id)
      ensures a == e.v.id || a == Counterpart(e.v.id)
    {
    }
    assert !Duplicates(g, e);
    TwinStep(g, e);
    if e.TransferItem? {
      c := TransferMakes(g, e);
    }
  }

  /** Between such clients no item is ever stored twice. */
  lemma {:induction false} HonestRun(g: Game, es: seq<Event>)
    requires GameOk(g) && NoTwins(g.vanjects) && PlainItems(g.vanjects) && IsRun(g, es)
    requires forall i :: 0 <= i < |es| ==> Honest(es[i])
    ensures NoTwins(Run(g, es).vanjects) && PlainItems(Run(g, es).vanjects) && GameOk(Run(g, es))
    decreases es
  {
    if es != [] {
      assert Honest(es[0]);
      HonestStep(g, es[0]);
      GameOkStep(g, es[0]);
      assert forall i :: 0 <= i < |es[1..]| ==> es[1..][i] == es[i + 1];
      HonestRun(After(g, es[0]), es[1..]);
    }
  }

  /** In no state that such clients bring a game to are both forms of an item stored. */
  lemma HonestGame(id: u32, es: seq<Event>, device: Id)
    requires IsRun(NewGame(id), es) && (forall i :: 0 <= i < |es| ==> Honest(es[i])) && device.kind == DEVICE
    ensures !(device in Run(NewGame(id), es).vanjects && Counterpart(device) in Run(NewGame(id), es).vanjects)
  {
    HonestRun(NewGame(id), es);
    assert SameItem(device, Counterpart(device)) && device != Counterpart(device);
  }

  /** The creation check alone is not enough: a link that names something else, here the item
      itself, gets the second form of an item accepted. */
  lemma DuplicateExample(g: Game, client: ClientId, stored: Id, v: Vanject)
    requires GameOk(g) && NoTwins(g.vanjects) && HasClient(g, client)
    requires stored in g.vanjects && IsItem(stored) && v.id == Counterpart(stored)
    requires |v.body| >= 5 && LinkedId(v) == Some(v.id)
    ensures Possible(g, Create(client, v)) && Duplicates(g, Create(client, v))
    ensures stored in After(g, Create(client, v)).vanjects && v.id in After(g, Create(client, v)).vanjects
  {
    assert SameItem(stored, v.id);
    var c := StepMakes(g, Create(client, v));
  }

  // ---- which transfers are well-formed ----

  /** A transfer packet passes its validations exactly when it asks to turn one form of an item into the
      other, the way its kind says, and says so three times: in the two ids, and in the link of the
      new form. */
  lemma TransferWellFormed(data: seq<byte>)
    ensures CheckTransfer(data).Ok? <==>
            && |data| >= 29
            && var kind, old', made := data[0], FromRaw(FromLe32(data[1..])), FromRaw(FromLe32(data[10..]));
               && SameItem(old', made)
               && ((kind == PICKUP && made.kind == DEVICE) || (kind == DROP && made.kind == STUFF))
               && old'.kind != made.kind && FromRaw(FromLe32(data[25..])) == old' && data[9] == 1
    ensures CheckTransfer(data).Ok? ==>
              var t := CheckTransfer(data).value;
              t.oldId == FromRaw(FromLe32(data[1..])) && t.v.id == FromRaw(FromLe32(data[10..]))
              && t.v.body == data[24..]
  {
    if |data| >= 24 {
      var slice := data[10..];
      assert forall i :: 0 <= i < |slice| ==> slice[i] == data[10 + i];
      assert FromLe32(slice) == FromLe32(data[10..]) && slice[14..] == data[24..];
      if |data| >= 29 {
        assert FromLe32(slice[14..][1..]) == FromLe32(data[25..]);
      }
    }
  }

  // ---- conservation ----

  datatype Item = Item(station: Bits5, world: Bits4, counter: u16)

  function ItemOf(id: Id): Item {
    Item(id.station, id.world, id.counter)
  }

  ghost function StoredItems(t: Table): set<Item> {
    set id | id in t && IsItem(id) :: ItemOf(id)
  }

  /** An accepted transfer keeps the size of the table, the items in it, and every other object. */
  lemma TransferConserves(g: Game, e: Event)
    requires GameOk(g) && e.TransferItem? && Possible(g, e) && Step(g, e).outcome.Done?
    ensures var t, t' := g.vanjects, After(g, e).vanjects;
            && |t'| == |t| && StoredItems(t') == StoredItems(t)
            && (forall id :: id != e.t.oldId && id != e.t.v.id ==>
                  (id in t <==> id in t') && (id in t ==> t[id] == t'[id]))
  {
    var t, t' := g.vanjects, After(g, e).vanjects;
    var c := TransferMakes(g, e);
    assert t'.Keys == t.Keys - {c.id} + {c.v.id};
    forall i ensures i in StoredItems(t) <==> i in StoredItems(t') {
      if i in StoredItems(t) {
        var id :| id in t && IsItem(id) && ItemOf(id) == i;
        var id' := if id == c.id then c.v.id else id;
        assert id' in t' && IsItem(id') && ItemOf(id') == i;
      }
      if i in StoredItems(t') {
        var id :| id in t' && IsItem(id) && ItemOf(id) == i;
        var id' := if id == c.v.id then c.id else id;
        assert id' in t && IsItem(id') && ItemOf(id') == i;
      }
    }
  }

  // ---- races for one item ----

  /** A player in the world of a lying item asks to pick it up. */
  predicate PicksUp(g: Game, e: Event, lying: Id) {
    && e.TransferItem? && e.t.kind == PICKUP && e.t.oldId == lying && HasClient(g, e.client)
    && PlayerOf(g, e.client).world == Some(lying.world as byte) && ValidateTransfer(e.t).None?
  }

  /** Such a request is granted exactly when the item still lies there. */
  lemma PickupGranted(g: Game, e: Event, lying: Id)
    requires GameOk(g) && NoTwins(g.vanjects) && PicksUp(g, e, lying)
    ensures Step(g, e).outcome.Done? <==> lying in g.vanjects
    ensures Step(g, e).outcome.Done? ==> lying !in After(g, e).vanjects
    ensures Step(g, e).outcome.Failed? ==> After(g, e) == g
    ensures After(g, e).players == g.players && NoTwins(After(g, e).vanjects) && GameOk(After(g, e))
  {
    assert SameItem(lying, e.t.v.id);
    TwinStep(g, e);
    GameOkStep(g, e);
  }

  ghost function Accepted(g: Game, es: seq<Event>): nat
    requires IsRun(g, es)
    decreases es
  {
    if es == [] then 0
    else (if Step(g, es[0]).outcome.Done? then 1 else 0) + Accepted(After(g, es[0]), es[1..])
  }

  lemma {:induction false} RaceIsRun(g: Game, es: seq<Event>, lying: Id)
    requires GameOk(g) && NoTwins(g.vanjects)
    requires forall i :: 0 <= i < |es| ==> PicksUp(g, es[i], lying)
    ensures IsRun(g, es)
    ensures Accepted(g, es) == if es != [] && lying in g.vanjects then 1 else 0
    decreases es
  {
    if es != [] {
      assert PicksUp(g, es[0], lying);
      PickupGranted(g, es[0], lying);
      var g1 := After(g, es[0]);
      forall i | 0 <= i < |es[1..]| ensures PicksUp(g1, es[1..][i], lying) {
        assert es[1..][i] == es[i + 1];
      }
      RaceIsRun(g1, es[1..], lying);
    }
  }

  /** Of several pickups of one lying item exactly one wins, the first. */
  lemma OnePickupWins(g: Game, es: seq<Event>, lying: Id)
    requires GameOk(g) && NoTwins(g.vanjects) && lying in g.vanjects && es != []
    requires forall i :: 0 <= i < |es| ==> PicksUp(g, es[i], lying)
    ensures IsRun(g, es) && Accepted(g, es) == 1
  {
    RaceIsRun(g, es, lying);
  }

  /** While the carried form of an item stays in the table, and no creation duplicates items, its lying
      form does not come back, so no pickup of it is granted. */
  lemma CarriedStaysCarried(g: Game, es: seq<Event>, carried: Id, e: Event)
    requires GameOk(g) && NoTwins(g.vanjects) && IsRun(g, es) && NoDuplicate(g, es)
    requires Stays(g, es, carried) && carried.kind == DEVICE
    requires PicksUp(Run(g, es), e, Counterpart(carried))
    ensures Step(Run(g, es), e).outcome.Failed? && After(Run(g, es), e) == Run(g, es)
  {
    NoItemTwice(g, es);
    TwinsToEnd(g, es);
    GameOkRun(g, es);
    StaysToEnd(g, es, carried);
    assert SameItem(carried, Counterpart(carried));
    PickupGranted(Run(g, es), e, Counterpart(carried));
  }

  lemma {:induction false} TwinsToEnd(g: Game, es: seq<Event>)
    requires IsRun(g, es) && NeverTwins(g, es)
    ensures NoTwins(Run(g, es).vanjects)
    decreases es
  {
    if es != [] {
      TwinsToEnd(After(g, es[0]), es[1..]);
    }
  }

  lemma {:induction false} StaysToEnd(g: Game, es: seq<Event>, id: Id)
    requires IsRun(g, es) && Stays(g, es, id)
    ensures id in Run(g, es).vanjects
    decreases es
  {
    if es != [] {
      StaysToEnd(After(g, es[0]), es[1..], id);
    }
  }

  // ---- the account of one lying item ----

  function Lies(g: Game, lying: Id): nat {
    if lying in g.vanjects then 1 else 0
  }

  /** The step is an accepted pickup of the item. */
  ghost predicate TakesUp(g: Game, e: Event, lying: Id)
    requires Possible(g, e)
  {
    e.TransferItem? && e.t.oldId == lying && Step(g, e).outcome.Done?
  }

  /** The step puts the item into the world: an accepted drop or creation. */
  ghost predicate PutsDown(g: Game, e: Event, lying: Id)
    requires Possible(g, e)
  {
    (e.TransferItem? && e.t.v.id == lying && Step(g, e).outcome.Done?) || (Accepts(g, e) && e.v.id == lying)
  }

  ghost predicate Destroys(g: Game, e: Event, lying: Id)
    requires Possible(g, e)
  {
    e.Delete? && e.id == lying && lying in g.vanjects && Step(g, e).outcome.Done?
  }

  ghost function Pickups(g: Game, es: seq<Event>, lying: Id): nat
    requires IsRun(g, es)
    decreases es
  {
    if es == [] then 0 else (if TakesUp(g, es[0], lying) then 1 else 0) + Pickups(After(g, es[0]), es[1..], lying)
  }

  ghost function Returns(g: Game, es: seq<Event>, lying: Id): nat
    requires IsRun(g, es)
    decreases es
  {
    if es == [] then 0 else (if PutsDown(g, es[0], lying) then 1 else 0) + Returns(After(g, es[0]), es[1..], lying)
  }

  ghost function Deletions(g: Game, es: seq<Event>, lying: Id): nat
    requires IsRun(g, es)
    decreases es
  {
    if es == [] then 0 else (if Destroys(g, es[0], lying) then 1 else 0) + Deletions(After(g, es[0]), es[1..], lying)
  }

  lemma LyingStep(g: Game, e: Event, lying: Id)
    requires GameOk(g) && Possible(g, e) && lying.kind == STUFF
    ensures Lies(g, lying) + (if PutsDown(g, e, lying) then 1 else 0)
            == (if TakesUp(g, e, lying) then 1 else 0) + (if Destroys(g, e, lying) then 1 else 0)
              + Lies(After(g, e), lying)
  {
    if e.Delete? {
      DeleteGranted(g, e);
    } else if e.TransferItem? {
      var c := TransferMakes(g, e);
    } else {
      var c := StepMakes(g, e);
    }
  }

  /** Over any run, whatever the clients do, a lying item was there or was put down exactly as often as it
      was picked up, was deleted or is there in the end. */
  lemma {:induction false} PickupAccount(g: Game, es: seq<Event>, lying: Id)
    requires GameOk(g) && IsRun(g, es) && lying.kind == STUFF
    ensures Lies(g, lying) + Returns(g, es, lying)
            == Pickups(g, es, lying) + Deletions(g, es, lying) + Lies(Run(g, es), lying)
    decreases es
  {
    if es != [] {
      LyingStep(g, es[0], lying);
      GameOkStep(g, es[0]);
      PickupAccount(After(g, es[0]), es[1..], lying);
    }
  }

  /** So between two times that it is put down, at most one pickup of it is granted. */
  lemma OnePickupBetweenDrops(g: Game, es: seq<Event>, lying: Id)
    requires GameOk(g) && IsRun(g, es) && lying.kind == STUFF && Returns(g, es, lying) == 0
    ensures Pickups(g, es, lying) <= Lies(g, lying) <= 1
  {
    PickupAccount(g, es, lying);
  }
}
